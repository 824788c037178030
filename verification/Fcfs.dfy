/** The first-come-first-served GPU scheduler, sllm/schedulers/fcfs_scheduler.py. One pass of the
    control loop never waits, so it is a single step; a caller whose request was granted records
    its instance in a later step of its own. */
module Fcfs {
  import opened Collections

  /** A waiting request: the identity of its future, the arguments of the call that waits for it,
      and its time. */
  datatype Req = Req(id: nat, model: string, instance: string, gpus: nat, time: real)

  datatype Queue = Queue(model: string, requests: seq<Req>)

  datatype Node = Node(id: string, free: nat)

  /** A request whose future holds a node that its caller has not seen yet. */
  datatype Grant = Grant(req: Req, node: string)

  /** A recorded instance. The scheduler keeps its node; the GPUs it was granted are kept here to
      state what they must add up to. */
  datatype Instance = Instance(model: string, instance: string, node: string, gpus: nat)

  /** The scheduler's fields, the futures that are set but not yet seen, the futures whose callers
      gave up, and the identity of the next future. */
  datatype View = View(
    queues: seq<Queue>,
    nodes: seq<Node>,
    instances: seq<Instance>,
    granted: seq<Grant>,
    cancelled: set<nat>,
    nextId: nat)

  const EMPTY := View([], [], [], [], {}, 0)

  datatype Event =
    | Allocate(model: string, instance: string, gpus: nat, time: real)
    | Pass(cluster: seq<Node>)
    | Record(id: nat)
    | Deallocate(model: string, instance: string, gpus: nat)
    | Cancel(id: nat)
    | Shutdown

  // ---- Queues --------------------------------------------------------------------------

  function Enqueue(queues: seq<Queue>, r: Req): seq<Queue> {
    if queues == [] then [Queue(r.model, [r])]
    else if queues[0].model == r.model then [Queue(r.model, queues[0].requests + [r])] + queues[1..]
    else [queues[0]] + Enqueue(queues[1..], r)
  }

  /** Python's `list.remove`: the first occurrence goes. */
  function RemoveFirst(requests: seq<Req>, r: Req): seq<Req> {
    if requests == [] then []
    else if requests[0] == r then requests[1..]
    else [requests[0]] + RemoveFirst(requests[1..], r)
  }

  function Dequeue(queues: seq<Queue>, r: Req): seq<Queue> {
    if queues == [] then []
    else if queues[0].model == r.model then [Queue(r.model, RemoveFirst(queues[0].requests, r))] + queues[1..]
    else [queues[0]] + Dequeue(queues[1..], r)
  }

  function Count(queues: seq<Queue>, r: Req): nat {
    if queues == [] then 0 else multiset(queues[0].requests)[r] + Count(queues[1..], r)
  }

  /** A request with its position in the queue of its model. */
  datatype Item = Item(idx: nat, req: Req)

  function ItemsFrom(requests: seq<Req>, idx: nat): seq<Item>
    decreases |requests|
  {
    if requests == [] then [] else [Item(idx, requests[0])] + ItemsFrom(requests[1..], idx + 1)
  }

  function Items(queues: seq<Queue>): seq<Item> {
    if queues == [] then [] else ItemsFrom(queues[0].requests, 0) + Items(queues[1..])
  }

  /** Python's stable sort by position. */
  function Insert(x: Item, sorted: seq<Item>): seq<Item> {
    if sorted == [] then [x]
    else if x.idx <= sorted[0].idx then [x] + sorted
    else [sorted[0]] + Insert(x, sorted[1..])
  }

  function SortByIdx(items: seq<Item>): seq<Item> {
    if items == [] then [] else Insert(items[0], SortByIdx(items[1..]))
  }

  // ---- Steps ---------------------------------------------------------------------------

  /** Nodes of the cluster that are not known yet join with their free GPUs. */
  function Join(nodes: seq<Node>, cluster: seq<Node>): seq<Node>
    decreases |cluster|
  {
    if cluster == [] then nodes
    else Join(if Known(nodes, cluster[0].id) then nodes else nodes + [cluster[0]], cluster[1..])
  }

  predicate Known(nodes: seq<Node>, id: string) {
    exists n :: 0 <= n < |nodes| && nodes[n].id == id
  }

  /** The first node with enough free GPUs, or the number of nodes. */
  function FirstFit(nodes: seq<Node>, gpus: nat): (n: nat)
    ensures n <= |nodes| && (n < |nodes| ==> nodes[n].free >= gpus)
    ensures forall m :: 0 <= m < n ==> nodes[m].free < gpus
  {
    if nodes == [] || nodes[0].free >= gpus then 0 else 1 + FirstFit(nodes[1..], gpus)
  }

  function GrantOne(v: View, r: Req): View {
    var n := FirstFit(v.nodes, r.gpus);
    if n == |v.nodes| || r.id in v.cancelled then v
    else
      v.(nodes := v.nodes[n := Node(v.nodes[n].id, v.nodes[n].free - r.gpus)],
         queues := Dequeue(v.queues, r),
         granted := v.granted + [Grant(r, v.nodes[n].id)])
  }

  function GrantAll(v: View, items: seq<Item>): View
    decreases |items|
  {
    if items == [] then v else GrantAll(GrantOne(v, items[0].req), items[1..])
  }

  /** One pass of the control loop. */
  function Passed(v: View, cluster: seq<Node>): View {
    var items := SortByIdx(Items(v.queues));
    if items == [] then v else GrantAll(v.(nodes := Join(v.nodes, cluster)), items)
  }

  function FindInstance(instances: seq<Instance>, model: string, instance: string): (k: nat)
    ensures k <= |instances|
    ensures k < |instances| ==> instances[k].model == model && instances[k].instance == instance
    ensures forall j :: 0 <= j < k ==> instances[j].model != model || instances[j].instance != instance
  {
    if instances == [] || (instances[0].model == model && instances[0].instance == instance) then 0
    else 1 + FindInstance(instances[1..], model, instance)
  }

  function FindGrant(granted: seq<Grant>, id: nat): (k: nat)
    ensures k <= |granted| && (k < |granted| ==> granted[k].req.id == id)
  {
    if granted == [] || granted[0].req.id == id then 0 else 1 + FindGrant(granted[1..], id)
  }

  /** The caller of a granted request goes on: its instance is recorded, over an older one of the
      same name. */
  function Recorded(v: View, id: nat): View {
    var g := FindGrant(v.granted, id);
    if g == |v.granted| then v
    else
      var r := v.granted[g].req;
      var k := FindInstance(v.instances, r.model, r.instance);
      var entry := Instance(r.model, r.instance, v.granted[g].node, r.gpus);
      v.(granted := v.granted[..g] + v.granted[g + 1..],
         instances := if k < |v.instances| then v.instances[k := entry] else v.instances + [entry])
  }

  function GiveBack(nodes: seq<Node>, id: string, gpus: nat): seq<Node> {
    if nodes == [] then []
    else if nodes[0].id == id then [Node(id, nodes[0].free + gpus)] + nodes[1..]
    else [nodes[0]] + GiveBack(nodes[1..], id, gpus)
  }

  function Deallocated(v: View, model: string, instance: string, gpus: nat): View {
    var k := FindInstance(v.instances, model, instance);
    if k == |v.instances| then v
    else
      v.(instances := v.instances[..k] + v.instances[k + 1..],
         nodes := GiveBack(v.nodes, v.instances[k].node, gpus))
  }

  function Apply(v: View, e: Event): View {
    match e
    case Allocate(model, instance, gpus, time) =>
      v.(queues := Enqueue(v.queues, Req(v.nextId, model, instance, gpus, time)), nextId := v.nextId + 1)
    case Pass(cluster) => Passed(v, cluster)
    case Record(id) => Recorded(v, id)
    case Deallocate(model, instance, gpus) => Deallocated(v, model, instance, gpus)
    case Cancel(id) => v.(cancelled := v.cancelled + {id})
    case Shutdown => v.(queues := [])
  }

  function Run(v: View, events: seq<Event>): View
    decreases |events|
  {
    if events == [] then v else Run(Apply(v, events[0]), events[1..])
  }

  // ---- GPUs are conserved --------------------------------------------------------------

  function FreeOn(nodes: seq<Node>, id: string): nat {
    if nodes == [] then 0 else (if nodes[0].id == id then nodes[0].free else 0) + FreeOn(nodes[1..], id)
  }

  function GrantedOn(granted: seq<Grant>, id: string): nat {
    if granted == [] then 0 else (if granted[0].node == id then granted[0].req.gpus else 0) + GrantedOn(granted[1..], id)
  }

  function RecordedOn(instances: seq<Instance>, id: string): nat {
    if instances == [] then 0 else (if instances[0].node == id then instances[0].gpus else 0) + RecordedOn(instances[1..], id)
  }

  /** Free GPUs of a node, with those of its granted and recorded instances. */
  function Total(v: View, id: string): nat {
    FreeOn(v.nodes, id) + GrantedOn(v.granted, id) + RecordedOn(v.instances, id)
  }

  lemma {:induction false} FreeAt(nodes: seq<Node>, n: nat, free: nat, id: string)
    requires n < |nodes|
    ensures FreeOn(nodes[n := Node(nodes[n].id, free)], id) ==
            FreeOn(nodes, id) + if nodes[n].id == id then free - nodes[n].free else 0
  {
    var w := nodes[n := Node(nodes[n].id, free)];
    if n == 0 {
      assert w[1..] == nodes[1..];
    } else {
      FreeAt(nodes[1..], n - 1, free, id);
      assert w[1..] == nodes[1..][n - 1 := Node(nodes[n].id, free)];
    }
  }

  lemma {:induction false} GrantedAppend(granted: seq<Grant>, g: Grant, id: string)
    ensures GrantedOn(granted + [g], id) == GrantedOn(granted, id) + if g.node == id then g.req.gpus else 0
  {
    if granted != [] {
      GrantedAppend(granted[1..], g, id);
      assert (granted + [g])[1..] == granted[1..] + [g];
    } else {
      assert granted + [g] == [g];
    }
  }

  lemma GrantOneTotal(v: View, r: Req, id: string)
    ensures Total(GrantOne(v, r), id) == Total(v, id)
  {
    var n := FirstFit(v.nodes, r.gpus);
    if n < |v.nodes| && r.id !in v.cancelled {
      FreeAt(v.nodes, n, v.nodes[n].free - r.gpus, id);
      GrantedAppend(v.granted, Grant(r, v.nodes[n].id), id);
    }
  }

  lemma {:induction false} GrantAllTotal(v: View, items: seq<Item>, id: string)
    ensures Total(GrantAll(v, items), id) == Total(v, id)
    decreases |items|
  {
    if items != [] {
      GrantOneTotal(v, items[0].req, id);
      GrantAllTotal(GrantOne(v, items[0].req), items[1..], id);
    }
  }

  lemma {:induction false} FreeAppend(nodes: seq<Node>, n: Node, id: string)
    ensures FreeOn(nodes + [n], id) == FreeOn(nodes, id) + if n.id == id then n.free else 0
  {
    if nodes != [] {
      FreeAppend(nodes[1..], n, id);
      assert (nodes + [n])[1..] == nodes[1..] + [n];
    } else {
      assert nodes + [n] == [n];
    }
  }

  /** Free GPUs a node joins with, if the cluster names it. */
  function ClusterFree(cluster: seq<Node>, id: string): nat {
    if cluster == [] then 0 else if cluster[0].id == id then cluster[0].free else ClusterFree(cluster[1..], id)
  }

  lemma {:induction false} JoinTotal(nodes: seq<Node>, cluster: seq<Node>, id: string)
    ensures FreeOn(Join(nodes, cluster), id) ==
            FreeOn(nodes, id) + if Known(nodes, id) then 0 else ClusterFree(cluster, id)
    decreases |cluster|
  {
    if cluster != [] {
      var next := if Known(nodes, cluster[0].id) then nodes else nodes + [cluster[0]];
      FreeAppend(nodes, cluster[0], id);
      JoinTotal(next, cluster[1..], id);
      if !Known(nodes, cluster[0].id) {
        assert next[|nodes|].id == cluster[0].id;
        if Known(nodes, id) {
          var n :| 0 <= n < |nodes| && nodes[n].id == id;
          assert next[n].id == id;
        }
      }
    }
  }

  /** A pass moves GPUs from free to granted; only a node that joins adds its own. */
  lemma {:induction false} PassTotal(v: View, cluster: seq<Node>, id: string)
    ensures Total(Passed(v, cluster), id) ==
            Total(v, id) + if Items(v.queues) == [] || Known(v.nodes, id) then 0 else ClusterFree(cluster, id)
  {
    var items := SortByIdx(Items(v.queues));
    SortEmpty(Items(v.queues));
    if items != [] {
      JoinTotal(v.nodes, cluster, id);
      GrantAllTotal(v.(nodes := Join(v.nodes, cluster)), items, id);
    }
  }

  lemma {:induction false} SortEmpty(items: seq<Item>)
    ensures SortByIdx(items) == [] <==> items == []
  {
  }

  lemma {:induction false} GrantedWithout(granted: seq<Grant>, g: nat, id: string)
    requires g < |granted|
    ensures GrantedOn(granted[..g] + granted[g + 1..], id) ==
            GrantedOn(granted, id) - if granted[g].node == id then granted[g].req.gpus else 0
  {
    var w := granted[..g] + granted[g + 1..];
    if g == 0 {
      assert w == granted[1..];
    } else {
      GrantedWithout(granted[1..], g - 1, id);
      assert w[0] == granted[0] && w[1..] == granted[1..][..g - 1] + granted[1..][g..];
    }
  }

  lemma {:induction false} RecordedWithout(instances: seq<Instance>, k: nat, id: string)
    requires k < |instances|
    ensures RecordedOn(instances[..k] + instances[k + 1..], id) ==
            RecordedOn(instances, id) - if instances[k].node == id then instances[k].gpus else 0
  {
    var w := instances[..k] + instances[k + 1..];
    if k == 0 {
      assert w == instances[1..];
    } else {
      RecordedWithout(instances[1..], k - 1, id);
      assert w[0] == instances[0] && w[1..] == instances[1..][..k - 1] + instances[1..][k..];
    }
  }

  lemma {:induction false} RecordedWith(instances: seq<Instance>, k: nat, entry: Instance, id: string)
    requires k <= |instances|
    ensures var w := if k < |instances| then instances[k := entry] else instances + [entry];
            RecordedOn(w, id) == RecordedOn(instances, id) + (if entry.node == id then entry.gpus else 0)
                                 - if k < |instances| && instances[k].node == id then instances[k].gpus else 0
  {
    var w := if k < |instances| then instances[k := entry] else instances + [entry];
    if instances == [] {
      assert w == [entry];
    } else if k == 0 {
      assert w[1..] == instances[1..];
    } else {
      RecordedWith(instances[1..], k - 1, entry, id);
      assert w[0] == instances[0];
      assert w[1..] == if k < |instances| then instances[1..][k - 1 := entry] else instances[1..] + [entry];
    }
  }

  /** GPUs on a node of the instance that recording the grant overwrites. */
  function Overwritten(v: View, grant: nat, id: string): nat {
    var g := FindGrant(v.granted, grant);
    if g == |v.granted| then 0
    else
      var k := FindInstance(v.instances, v.granted[g].req.model, v.granted[g].req.instance);
      if k < |v.instances| && v.instances[k].node == id then v.instances[k].gpus else 0
  }

  lemma RecordTotal(v: View, grant: nat, id: string)
    ensures Total(Recorded(v, grant), id) == Total(v, id) - Overwritten(v, grant, id)
  {
    var g := FindGrant(v.granted, grant);
    if g < |v.granted| {
      var r := v.granted[g].req;
      GrantedWithout(v.granted, g, id);
      RecordedWith(v.instances, FindInstance(v.instances, r.model, r.instance),
                   Instance(r.model, r.instance, v.granted[g].node, r.gpus), id);
    }
  }

  lemma {:induction false} GiveBackTotal(nodes: seq<Node>, node: string, gpus: nat, id: string)
    ensures FreeOn(GiveBack(nodes, node, gpus), id) == FreeOn(nodes, id) + if node == id && Known(nodes, node) then gpus else 0
  {
    if nodes != [] {
      KnownTail(nodes, node);
      if nodes[0].id != node {
        GiveBackTotal(nodes[1..], node, gpus, id);
      }
    }
  }

  lemma KnownTail(nodes: seq<Node>, id: string)
    requires nodes != []
    ensures Known(nodes, id) <==> nodes[0].id == id || Known(nodes[1..], id)
  {
    if Known(nodes, id) && nodes[0].id != id {
      var n :| 0 <= n < |nodes| && nodes[n].id == id;
      assert nodes[1..][n - 1].id == id;
    }
    if Known(nodes[1..], id) {
      var n :| 0 <= n < |nodes[1..]| && nodes[1..][n].id == id;
      assert nodes[n + 1].id == id;
    }
  }

  lemma {:induction false} DeallocateTotal(v: View, model: string, instance: string, gpus: nat, id: string)
    requires forall k :: 0 <= k < |v.instances| ==> Known(v.nodes, v.instances[k].node)
    ensures var k := FindInstance(v.instances, model, instance);
            Total(Deallocated(v, model, instance, gpus), id) ==
            Total(v, id) + if k < |v.instances| && v.instances[k].node == id then gpus - v.instances[k].gpus else 0
  {
    var k := FindInstance(v.instances, model, instance);
    if k < |v.instances| {
      RecordedWithout(v.instances, k, id);
      GiveBackTotal(v.nodes, v.instances[k].node, gpus, id);
    }
  }

  /** A step after which every known node has as many GPUs in all as before: recording does not
      overwrite an instance with GPUs, and deallocating gives back what was granted. */
  ghost predicate Careful(v: View, e: Event) {
    match e
    case Record(id) =>
      var g := FindGrant(v.granted, id);
      g < |v.granted| ==>
        var k := FindInstance(v.instances, v.granted[g].req.model, v.granted[g].req.instance);
        k < |v.instances| ==> v.instances[k].gpus == 0
    case Deallocate(model, instance, gpus) =>
      var k := FindInstance(v.instances, model, instance);
      k < |v.instances| ==> v.instances[k].gpus == gpus
    case _ => true
  }

  /** Grants and instances are on known nodes. */
  ghost predicate OnKnown(v: View) {
    && (forall k :: 0 <= k < |v.instances| ==> Known(v.nodes, v.instances[k].node))
    && (forall g :: 0 <= g < |v.granted| ==> Known(v.nodes, v.granted[g].node))
  }

  lemma StepTotal(v: View, e: Event, id: string)
    requires OnKnown(v) && Known(v.nodes, id) && Careful(v, e)
    ensures Total(Apply(v, e), id) == Total(v, id)
  {
    match e
    case Pass(cluster) => PassTotal(v, cluster, id);
    case Record(grant) => RecordTotal(v, grant, id);
    case Deallocate(model, instance, gpus) => DeallocateTotal(v, model, instance, gpus, id);
    case _ =>
  }

  /** A step conserves the GPUs of all known nodes if and only if it is careful. */
  lemma ConservesIffCareful(v: View, e: Event)
    requires OnKnown(v)
    ensures (forall id :: Known(v.nodes, id) ==> Total(Apply(v, e), id) == Total(v, id)) <==> Careful(v, e)
  {
    if Careful(v, e) {
      forall id | Known(v.nodes, id)
        ensures Total(Apply(v, e), id) == Total(v, id)
      {
        StepTotal(v, e, id);
      }
    } else if e.Record? {
      var r := v.granted[FindGrant(v.granted, e.id)].req;
      RecordTotal(v, e.id, v.instances[FindInstance(v.instances, r.model, r.instance)].node);
    } else {
      var k := FindInstance(v.instances, e.model, e.instance);
      DeallocateTotal(v, e.model, e.instance, e.gpus, v.instances[k].node);
    }
  }

  // ---- What every run keeps ------------------------------------------------------------

  /** Queues are labelled with the models of their requests, one queue a model. */
  ghost predicate Labelled(queues: seq<Queue>) {
    && (forall p, q :: 0 <= p < q < |queues| ==> queues[p].model != queues[q].model)
    && (forall q, r :: 0 <= q < |queues| && r in queues[q].requests ==> r.model == queues[q].model)
  }

  /** Nothing waits twice, and what waits has an older future than the next. */
  ghost predicate Once(queues: seq<Queue>, nextId: nat) {
    forall r :: Count(queues, r) <= 1 && (Count(queues, r) > 0 ==> r.id < nextId)
  }

  ghost predicate Ok(v: View) {
    && Labelled(v.queues) && Once(v.queues, v.nextId) && OnKnown(v)
    && (forall g :: 0 <= g < |v.granted| ==> v.granted[g].req.id < v.nextId && Count(v.queues, v.granted[g].req) == 0)
  }

  lemma LabelledTail(queues: seq<Queue>)
    requires queues != []
    ensures Labelled(queues) <==>
            && Labelled(queues[1..])
            && (forall r :: r in queues[0].requests ==> r.model == queues[0].model)
            && (forall q :: 0 <= q < |queues[1..]| ==> queues[1..][q].model != queues[0].model)
  {
    var rest := queues[1..];
    assert forall q :: 0 <= q < |rest| ==> rest[q] == queues[q + 1];
    if Labelled(rest) && (forall r :: r in queues[0].requests ==> r.model == queues[0].model)
       && forall q :: 0 <= q < |rest| ==> rest[q].model != queues[0].model {
      forall p, q | 0 <= p < q < |queues|
        ensures queues[p].model != queues[q].model
      {
        assert queues[q] == rest[q - 1] && (p > 0 ==> queues[p] == rest[p - 1]);
      }
      forall q, r | 0 <= q < |queues| && r in queues[q].requests
        ensures r.model == queues[q].model
      {
        assert q > 0 ==> queues[q] == rest[q - 1];
      }
    }
  }

  ghost predicate HasQueue(queues: seq<Queue>, model: string) {
    exists q :: 0 <= q < |queues| && queues[q].model == model
  }

  lemma {:induction false} CountModel(queues: seq<Queue>, r: Req)
    requires Labelled(queues) && forall q :: 0 <= q < |queues| ==> queues[q].model != r.model
    ensures Count(queues, r) == 0
  {
    if queues != [] {
      LabelledTail(queues);
      CountModel(queues[1..], r);
    }
  }

  lemma {:induction false} RemoveFirstCount(requests: seq<Req>, r: Req)
    ensures multiset(RemoveFirst(requests, r)) == multiset(requests) - multiset{r}
  {
    if requests != [] {
      assert requests == [requests[0]] + requests[1..];
      if requests[0] != r {
        RemoveFirstCount(requests[1..], r);
      }
    }
  }

  lemma {:induction false} RemoveFirstMember(requests: seq<Req>, r: Req, x: Req)
    requires x in RemoveFirst(requests, r)
    ensures x in requests
  {
    RemoveFirstCount(requests, r);
    assert x in multiset(RemoveFirst(requests, r));
  }

  lemma {:induction false} DequeueMeans(queues: seq<Queue>, r: Req)
    requires Labelled(queues)
    ensures Labelled(Dequeue(queues, r)) && |Dequeue(queues, r)| == |queues|
    ensures forall q :: 0 <= q < |queues| ==> Dequeue(queues, r)[q].model == queues[q].model
    ensures forall x :: Count(Dequeue(queues, r), x) == Count(queues, x) - if x == r && Count(queues, r) > 0 then 1 else 0
  {
    if queues != [] {
      LabelledTail(queues);
      if queues[0].model == r.model {
        DequeueHere(queues, r);
      } else {
        var w := Dequeue(queues, r);
        DequeueMeans(queues[1..], r);
        assert w[1..] == Dequeue(queues[1..], r);
        LabelledTail(w);
      }
    }
  }

  lemma {:induction false} DequeueHere(queues: seq<Queue>, r: Req)
    requires Labelled(queues) && queues != [] && queues[0].model == r.model
    ensures Labelled(Dequeue(queues, r))
    ensures forall x :: Count(Dequeue(queues, r), x) == Count(queues, x) - if x == r && Count(queues, r) > 0 then 1 else 0
  {
    var w := Dequeue(queues, r);
    LabelledTail(queues);
    CountModel(queues[1..], r);
    RemoveFirstCount(queues[0].requests, r);
    assert w[1..] == queues[1..];
    forall x | x in w[0].requests
      ensures x.model == w[0].model
    {
      RemoveFirstMember(queues[0].requests, r, x);
    }
    LabelledTail(w);
  }

  lemma {:induction false} EnqueueMeans(queues: seq<Queue>, r: Req)
    requires Labelled(queues)
    ensures Labelled(Enqueue(queues, r))
    ensures forall q :: 0 <= q < |Enqueue(queues, r)| ==>
              Enqueue(queues, r)[q].model == r.model || HasQueue(queues, Enqueue(queues, r)[q].model)
    ensures forall x :: Count(Enqueue(queues, r), x) == Count(queues, x) + if x == r then 1 else 0
  {
    var w := Enqueue(queues, r);
    if queues == [] {
      assert w[1..] == [];
      assert Count(w[1..], r) == 0;
      LabelledTail(w);
    } else {
      LabelledTail(queues);
      if queues[0].model == r.model {
        assert w[1..] == queues[1..];
        forall q | 0 <= q < |w|
          ensures HasQueue(queues, w[q].model)
        {
          assert queues[q].model == w[q].model;
        }
      } else {
        EnqueueMeans(queues[1..], r);
        assert w[1..] == Enqueue(queues[1..], r);
        forall q | 0 <= q < |w|
          ensures w[q].model == r.model || HasQueue(queues, w[q].model)
          ensures q > 0 ==> w[q].model != w[0].model
        {
          if q == 0 {
            assert queues[0].model == w[0].model;
          } else if HasQueue(queues[1..], w[1..][q - 1].model) {
            var p :| 0 <= p < |queues[1..]| && queues[1..][p].model == w[q].model;
            assert queues[p + 1].model == w[q].model;
          }
        }
      }
      LabelledTail(w);
    }
  }

  // ---- A pass leaves nothing that fits -------------------------------------------------

  ghost predicate Fits(nodes: seq<Node>, gpus: nat) {
    exists n :: 0 <= n < |nodes| && nodes[n].free >= gpus
  }

  /** Same nodes, no more free GPUs. */
  ghost predicate Shrinks(a: seq<Node>, b: seq<Node>) {
    |a| == |b| && forall n :: 0 <= n < |a| ==> b[n].id == a[n].id && b[n].free <= a[n].free
  }

  lemma {:induction false} FirstFitFits(nodes: seq<Node>, gpus: nat)
    ensures FirstFit(nodes, gpus) < |nodes| <==> Fits(nodes, gpus)
  {
    if FirstFit(nodes, gpus) < |nodes| {
      assert nodes[FirstFit(nodes, gpus)].free >= gpus;
    }
  }

  ghost predicate Queued(v: View, r: Req) {
    Count(v.queues, r) > 0
  }

  ghost predicate Granted(v: View, r: Req) {
    exists g :: 0 <= g < |v.granted| && v.granted[g].req == r
  }

  lemma {:induction false} GrantOneMeans(v: View, r: Req)
    requires Labelled(v.queues)
    ensures var w := GrantOne(v, r);
            && Labelled(w.queues) && Shrinks(v.nodes, w.nodes) && w.cancelled == v.cancelled && w.nextId == v.nextId
            && w.instances == v.instances && |w.queues| == |v.queues| && v.granted <= w.granted
            && (Fits(v.nodes, r.gpus) && r.id !in v.cancelled ==>
                  Granted(w, r) && w.queues == Dequeue(v.queues, r) && w.granted[..|v.granted|] == v.granted && |w.granted| == |v.granted| + 1)
            && (!(Fits(v.nodes, r.gpus) && r.id !in v.cancelled) ==> w == v)
  {
    FirstFitFits(v.nodes, r.gpus);
    DequeueMeans(v.queues, r);
    var w := GrantOne(v, r);
    if w.granted != v.granted {
      assert w.granted[|v.granted|].req == r;
    }
  }

  ghost predicate AtMostOnce(queues: seq<Queue>) {
    forall r :: Count(queues, r) <= 1
  }

  /** What a sequence of attempts keeps: requests only leave by being granted. */
  ghost predicate Attempted(v: View, w: View) {
    && Shrinks(v.nodes, w.nodes) && w.cancelled == v.cancelled && w.nextId == v.nextId && w.instances == v.instances
    && Labelled(w.queues) && v.granted <= w.granted
    && (forall x :: Count(w.queues, x) <= Count(v.queues, x))
    && (forall x :: Count(w.queues, x) < Count(v.queues, x) ==> Granted(w, x))
  }

  lemma GrantOneAttempted(v: View, r: Req)
    requires Labelled(v.queues)
    ensures Attempted(v, GrantOne(v, r))
  {
    GrantOneMeans(v, r);
    DequeueMeans(v.queues, r);
  }

  lemma AttemptedThrough(u: View, v: View, w: View)
    requires Attempted(u, v) && Attempted(v, w)
    ensures Attempted(u, w)
  {
    forall x | Count(w.queues, x) < Count(u.queues, x)
      ensures Granted(w, x)
    {
      if Granted(v, x) {
        var g :| 0 <= g < |v.granted| && v.granted[g].req == x;
        assert w.granted[g].req == x;
      }
    }
  }

  lemma {:induction false} GrantAllAttempted(v: View, items: seq<Item>)
    requires Labelled(v.queues)
    ensures Attempted(v, GrantAll(v, items))
    decreases |items|
  {
    if items != [] {
      GrantOneAttempted(v, items[0].req);
      GrantAllAttempted(GrantOne(v, items[0].req), items[1..]);
      AttemptedThrough(v, GrantOne(v, items[0].req), GrantAll(v, items));
    }
  }

  lemma FitsLess(a: seq<Node>, b: seq<Node>, gpus: nat)
    requires Shrinks(a, b) && Fits(b, gpus)
    ensures Fits(a, gpus)
  {
    var n :| 0 <= n < |b| && b[n].free >= gpus;
    assert a[n].free >= gpus;
  }

  /** The attempt for `items[i]` succeeds, or it fits no node any more. */
  lemma {:induction false} GrantAllServes(v: View, items: seq<Item>, i: nat)
    requires Labelled(v.queues) && AtMostOnce(v.queues) && i < |items| && items[i].req.id !in v.cancelled
    ensures var w := GrantAll(v, items);
            Queued(w, items[i].req) ==> !Fits(w.nodes, items[i].req.gpus)
    decreases |items|
  {
    var r := items[0].req;
    var next, w := GrantOne(v, r), GrantAll(v, items);
    GrantOneMeans(v, r);
    GrantOneAttempted(v, r);
    if i > 0 {
      GrantAllServes(next, items[1..], i - 1);
    } else {
      GrantAllAttempted(next, items[1..]);
      DequeueMeans(v.queues, r);
      if Fits(w.nodes, r.gpus) {
        FitsLess(next.nodes, w.nodes, r.gpus);
        FitsLess(v.nodes, next.nodes, r.gpus);
      }
    }
  }

  lemma {:induction false} ItemsFromMeans(requests: seq<Req>, idx: nat, i: nat)
    requires i < |requests|
    ensures Item(idx + i, requests[i]) in ItemsFrom(requests, idx)
    decreases |requests|
  {
    if i > 0 {
      ItemsFromMeans(requests[1..], idx + 1, i - 1);
    }
  }

  lemma {:induction false} ItemsMeans(queues: seq<Queue>, q: nat, i: nat)
    requires q < |queues| && i < |queues[q].requests|
    ensures Item(i, queues[q].requests[i]) in Items(queues)
  {
    if q == 0 {
      ItemsFromMeans(queues[0].requests, 0, i);
    } else {
      ItemsMeans(queues[1..], q - 1, i);
    }
  }

  ghost predicate SortedByIdx(items: seq<Item>) {
    forall i, j :: 0 <= i < j < |items| ==> items[i].idx <= items[j].idx
  }

  function CountItems(items: seq<Item>, r: Req): nat {
    if items == [] then 0 else (if items[0].req == r then 1 else 0) + CountItems(items[1..], r)
  }

  lemma {:induction false} InsertMeans(x: Item, s: seq<Item>)
    ensures forall y :: y in Insert(x, s) <==> y == x || y in s
    ensures SortedByIdx(s) ==> SortedByIdx(Insert(x, s))
    ensures forall r :: CountItems(Insert(x, s), r) == CountItems(s, r) + if x.req == r then 1 else 0
  {
    if s != [] && !(x.idx <= s[0].idx) {
      InsertMeans(x, s[1..]);
      assert Insert(x, s)[1..] == Insert(x, s[1..]);
      assert SortedByIdx(s) ==> forall y :: y in s[1..] ==> s[0].idx <= y.idx;
      assert SortedByIdx(s) ==> forall y :: y in Insert(x, s[1..]) ==> s[0].idx <= y.idx;
    } else {
      assert Insert(x, s)[1..] == s;
    }
  }

  lemma {:induction false} SortMeans(items: seq<Item>)
    ensures SortedByIdx(SortByIdx(items))
    ensures forall y :: y in SortByIdx(items) <==> y in items
    ensures forall r :: CountItems(SortByIdx(items), r) == CountItems(items, r)
  {
    if items != [] {
      SortMeans(items[1..]);
      InsertMeans(items[0], SortByIdx(items[1..]));
      assert forall y :: y in items <==> y == items[0] || y in items[1..];
    }
  }

  lemma {:induction false} CountPlace(queues: seq<Queue>, r: Req) returns (q: nat, i: nat)
    requires Count(queues, r) > 0
    ensures q < |queues| && i < |queues[q].requests| && queues[q].requests[i] == r
  {
    if r in multiset(queues[0].requests) {
      q := 0;
      i :| 0 <= i < |queues[0].requests| && queues[0].requests[i] == r;
    } else {
      q, i := CountPlace(queues[1..], r);
      q := q + 1;
    }
  }

  lemma {:induction false} JoinKnown(nodes: seq<Node>, cluster: seq<Node>)
    ensures nodes <= Join(nodes, cluster)
    decreases |cluster|
  {
    if cluster != [] {
      JoinKnown(if Known(nodes, cluster[0].id) then nodes else nodes + [cluster[0]], cluster[1..]);
    }
  }

  lemma {:induction false} PassedAttempted(v: View, cluster: seq<Node>)
    requires Labelled(v.queues)
    ensures var start := v.(nodes := if Items(v.queues) == [] then v.nodes else Join(v.nodes, cluster));
            Attempted(start, Passed(v, cluster))
  {
    SortEmpty(Items(v.queues));
    GrantAllAttempted(v.(nodes := Join(v.nodes, cluster)), SortByIdx(Items(v.queues)));
  }

  /** After a pass, no request that still waits fits any node, unless its caller gave up; and a
      request that waits no longer has been granted. */
  lemma PassServes(v: View, cluster: seq<Node>, r: Req)
    requires Ok(v) && Queued(v, r)
    ensures var w := Passed(v, cluster);
            && (Queued(w, r) && r.id !in v.cancelled ==> !Fits(w.nodes, r.gpus))
            && (!Queued(w, r) ==> Granted(w, r))
  {
    var items := SortByIdx(Items(v.queues));
    SortMeans(Items(v.queues));
    SortEmpty(Items(v.queues));
    var q, i := CountPlace(v.queues, r);
    ItemsMeans(v.queues, q, i);
    PassedAttempted(v, cluster);
    var j :| 0 <= j < |items| && items[j] == Item(i, r);
    if r.id !in v.cancelled {
      GrantAllServes(v.(nodes := Join(v.nodes, cluster)), items, j);
    }
  }

  // ---- Grants of one model come in queue order -----------------------------------------

  /** What fits no node is not granted. */
  lemma {:induction false} StaysQueued(v: View, items: seq<Item>, r: Req)
    requires Labelled(v.queues) && !Fits(v.nodes, r.gpus)
    ensures Count(GrantAll(v, items).queues, r) == Count(v.queues, r)
    decreases |items|
  {
    if items != [] {
      var next := GrantOne(v, items[0].req);
      GrantOneMeans(v, items[0].req);
      DequeueMeans(v.queues, items[0].req);
      if Fits(next.nodes, r.gpus) {
        FitsLess(v.nodes, next.nodes, r.gpus);
      }
      StaysQueued(next, items[1..], r);
    }
  }

  lemma FitsSmaller(nodes: seq<Node>, a: nat, b: nat)
    requires a <= b && Fits(nodes, b)
    ensures Fits(nodes, a)
  {
    var n :| 0 <= n < |nodes| && nodes[n].free >= b;
    assert nodes[n].free >= a;
  }

  /** Of two attempts, the later one does not succeed for at least as many GPUs when the earlier
      one fails. */
  lemma {:induction false} GrantAllOrder(v: View, items: seq<Item>, i: nat, j: nat)
    requires Labelled(v.queues) && AtMostOnce(v.queues) && i < j < |items|
    requires items[i].req.gpus <= items[j].req.gpus && items[i].req.id !in v.cancelled
    requires forall k :: 0 <= k < j ==> items[k].req != items[j].req
    ensures Queued(GrantAll(v, items), items[i].req) && Queued(v, items[j].req) ==> Queued(GrantAll(v, items), items[j].req)
    decreases |items|
  {
    var r := items[0].req;
    var next := GrantOne(v, r);
    GrantOneMeans(v, r);
    GrantOneAttempted(v, r);
    DequeueMeans(v.queues, r);
    assert r != items[j].req;
    if i > 0 {
      GrantAllOrder(next, items[1..], i - 1, j - 1);
    } else if Fits(v.nodes, r.gpus) {
      GrantAllAttempted(next, items[1..]);
    } else {
      assert !Fits(v.nodes, items[j].req.gpus) by {
        if Fits(v.nodes, items[j].req.gpus) {
          FitsSmaller(v.nodes, r.gpus, items[j].req.gpus);
        }
      }
      StaysQueued(next, items[1..], items[j].req);
    }
  }

  lemma {:induction false} ItemsFromCount(requests: seq<Req>, idx: nat, r: Req)
    ensures CountItems(ItemsFrom(requests, idx), r) == multiset(requests)[r]
    decreases |requests|
  {
    if requests != [] {
      ItemsFromCount(requests[1..], idx + 1, r);
      assert requests == [requests[0]] + requests[1..];
    }
  }

  lemma {:induction false} CountItemsAppend(a: seq<Item>, b: seq<Item>, r: Req)
    ensures CountItems(a + b, r) == CountItems(a, r) + CountItems(b, r)
  {
    if a == [] {
      assert a + b == b;
    } else {
      CountItemsAppend(a[1..], b, r);
      assert (a + b)[1..] == a[1..] + b;
    }
  }

  lemma {:induction false} ItemsCount(queues: seq<Queue>, r: Req)
    ensures CountItems(Items(queues), r) == Count(queues, r)
  {
    if queues != [] {
      ItemsCount(queues[1..], r);
      ItemsFromCount(queues[0].requests, 0, r);
      CountItemsAppend(ItemsFrom(queues[0].requests, 0), Items(queues[1..]), r);
    }
  }

  lemma {:induction false} CountedOnce(items: seq<Item>, i: nat, j: nat)
    requires i < j < |items| && items[i].req == items[j].req
    ensures CountItems(items, items[j].req) >= 2
  {
    if i == 0 {
      CountedAtLeast(items[1..], j - 1);
    } else {
      CountedOnce(items[1..], i - 1, j - 1);
    }
  }

  lemma {:induction false} CountedAtLeast(items: seq<Item>, j: nat)
    requires j < |items|
    ensures CountItems(items, items[j].req) >= 1
  {
    if j > 0 {
      CountedAtLeast(items[1..], j - 1);
    }
  }

  // ---- Runs ----------------------------------------------------------------------------

  lemma KnownSame(a: seq<Node>, b: seq<Node>, id: string)
    requires (Shrinks(a, b) || a <= b) && Known(a, id)
    ensures Known(b, id)
  {
    var n :| 0 <= n < |a| && a[n].id == id;
    assert b[n].id == id;
  }

  lemma {:induction false} GiveBackKnown(nodes: seq<Node>, node: string, gpus: nat)
    ensures |GiveBack(nodes, node, gpus)| == |nodes|
    ensures forall n :: 0 <= n < |nodes| ==> GiveBack(nodes, node, gpus)[n].id == nodes[n].id
  {
    if nodes != [] && nodes[0].id != node {
      GiveBackKnown(nodes[1..], node, gpus);
    }
  }

  ghost predicate AllKnown(a: seq<Node>, b: seq<Node>) {
    forall id :: Known(a, id) ==> Known(b, id)
  }

  lemma NodesStay(v: View, e: Event)
    requires Labelled(v.queues)
    ensures AllKnown(v.nodes, Apply(v, e).nodes)
  {
    if e.Pass? {
      JoinKnown(v.nodes, e.cluster);
      PassedAttempted(v, e.cluster);
      forall id | Known(v.nodes, id)
        ensures Known(Passed(v, e.cluster).nodes, id)
      {
        KnownSame(v.nodes, Join(v.nodes, e.cluster), id);
        KnownSame(if Items(v.queues) == [] then v.nodes else Join(v.nodes, e.cluster), Passed(v, e.cluster).nodes, id);
      }
    } else if e.Deallocate? && FindInstance(v.instances, e.model, e.instance) < |v.instances| {
      var node := v.instances[FindInstance(v.instances, e.model, e.instance)].node;
      GiveBackKnown(v.nodes, node, e.gpus);
      forall id | Known(v.nodes, id)
        ensures Known(GiveBack(v.nodes, node, e.gpus), id)
      {
        var n :| 0 <= n < |v.nodes| && v.nodes[n].id == id;
        assert GiveBack(v.nodes, node, e.gpus)[n].id == id;
      }
    }
  }

  lemma GrantOneOk(v: View, r: Req)
    requires Ok(v) && r.id < v.nextId
    ensures Ok(GrantOne(v, r))
  {
    var w := GrantOne(v, r);
    GrantOneMeans(v, r);
    DequeueMeans(v.queues, r);
    forall id | Known(v.nodes, id)
      ensures Known(w.nodes, id)
    {
      KnownSame(v.nodes, w.nodes, id);
    }
    forall g | 0 <= g < |w.granted|
      ensures Known(w.nodes, w.granted[g].node)
    {
      if g < |v.granted| {
        assert w.granted[g] == v.granted[g];
      } else {
        assert w.nodes[FirstFit(v.nodes, r.gpus)].id == w.granted[g].node;
      }
    }
  }

  lemma {:induction false} GrantAllOk(v: View, items: seq<Item>)
    requires Ok(v) && forall x :: x in items ==> x.req.id < v.nextId
    ensures Ok(GrantAll(v, items))
    decreases |items|
  {
    if items != [] {
      assert items[0] in items;
      GrantOneOk(v, items[0].req);
      GrantOneMeans(v, items[0].req);
      GrantAllOk(GrantOne(v, items[0].req), items[1..]);
    }
  }

  lemma PassedOk(v: View, cluster: seq<Node>)
    requires Ok(v)
    ensures Ok(Passed(v, cluster))
  {
    var items := SortByIdx(Items(v.queues));
    SortMeans(Items(v.queues));
    forall x | x in items
      ensures x.req.id < v.nextId
    {
      var j :| 0 <= j < |items| && items[j] == x;
      CountedAtLeast(items, j);
      ItemsCount(v.queues, x.req);
    }
    JoinKnown(v.nodes, cluster);
    var start := v.(nodes := Join(v.nodes, cluster));
    forall id | Known(v.nodes, id)
      ensures Known(start.nodes, id)
    {
      KnownSame(v.nodes, start.nodes, id);
    }
    if items != [] {
      GrantAllOk(start, items);
    }
  }

  lemma {:induction false} EnqueuedOk(v: View, r: Req)
    requires Ok(v) && r.id == v.nextId
    ensures Ok(v.(queues := Enqueue(v.queues, r), nextId := v.nextId + 1))
  {
    EnqueueMeans(v.queues, r);
  }

  lemma RecordedOk(v: View, id: nat)
    requires Ok(v)
    ensures Ok(Recorded(v, id))
  {
  }

  lemma DeallocatedOk(v: View, model: string, instance: string, gpus: nat)
    requires Ok(v)
    ensures Ok(Deallocated(v, model, instance, gpus))
  {
    NodesStay(v, Deallocate(model, instance, gpus));
  }

  lemma ApplyOk(v: View, e: Event)
    requires Ok(v)
    ensures Ok(Apply(v, e))
  {
    match e
    case Allocate(model, instance, gpus, time) => EnqueuedOk(v, Req(v.nextId, model, instance, gpus, time));
    case Pass(cluster) => PassedOk(v, cluster);
    case Record(id) => RecordedOk(v, id);
    case Deallocate(model, instance, gpus) => DeallocatedOk(v, model, instance, gpus);
    case _ =>
  }

  ghost predicate CarefulRun(v: View, events: seq<Event>)
    decreases |events|
  {
    events == [] || (Careful(v, events[0]) && CarefulRun(Apply(v, events[0]), events[1..]))
  }

  /** Over any careful run the GPUs of a node that are free, granted or recorded add up to the same
      total. */
  lemma {:induction false} RunConserves(v: View, events: seq<Event>, id: string)
    requires Ok(v) && CarefulRun(v, events) && Known(v.nodes, id)
    ensures Ok(Run(v, events)) && Known(Run(v, events).nodes, id)
    ensures Total(Run(v, events), id) == Total(v, id)
    decreases |events|
  {
    if events != [] {
      ApplyOk(v, events[0]);
      NodesStay(v, events[0]);
      StepTotal(v, events[0], id);
      RunConserves(Apply(v, events[0]), events[1..], id);
    }
  }

  /** Free GPUs of the node when a pass of the run first meets it. */
  ghost function JoinedWith(v: View, events: seq<Event>, id: string): nat
    decreases |events|
  {
    if events == [] then 0
    else if events[0].Pass? && Items(v.queues) != [] && Known(events[0].cluster, id) then ClusterFree(events[0].cluster, id)
    else JoinedWith(Apply(v, events[0]), events[1..], id)
  }

  lemma {:induction false} UnknownFree(nodes: seq<Node>, id: string)
    requires !Known(nodes, id)
    ensures FreeOn(nodes, id) == 0
  {
    if nodes != [] {
      KnownTail(nodes, id);
      UnknownFree(nodes[1..], id);
    }
  }

  lemma {:induction false} UnknownGranted(granted: seq<Grant>, id: string)
    requires forall g :: 0 <= g < |granted| ==> granted[g].node != id
    ensures GrantedOn(granted, id) == 0
  {
    if granted != [] {
      UnknownGranted(granted[1..], id);
    }
  }

  lemma {:induction false} UnknownRecorded(instances: seq<Instance>, id: string)
    requires forall k :: 0 <= k < |instances| ==> instances[k].node != id
    ensures RecordedOn(instances, id) == 0
  {
    if instances != [] {
      UnknownRecorded(instances[1..], id);
    }
  }

  lemma UnknownTotal(v: View, id: string)
    requires OnKnown(v) && !Known(v.nodes, id)
    ensures Total(v, id) == 0
  {
    UnknownFree(v.nodes, id);
    UnknownGranted(v.granted, id);
    UnknownRecorded(v.instances, id);
  }

  lemma {:induction false} JoinNamed(nodes: seq<Node>, cluster: seq<Node>, id: string)
    ensures Known(Join(nodes, cluster), id) <==> Known(nodes, id) || Known(cluster, id)
    decreases |cluster|
  {
    if cluster != [] {
      KnownTail(cluster, id);
      var next := if Known(nodes, cluster[0].id) then nodes else nodes + [cluster[0]];
      JoinNamed(next, cluster[1..], id);
      KnownAppend(nodes, cluster[0], id);
    }
  }

  lemma KnownAppend(nodes: seq<Node>, n: Node, id: string)
    ensures Known(nodes + [n], id) <==> Known(nodes, id) || n.id == id
  {
    assert (nodes + [n])[|nodes|] == n;
    if Known(nodes, id) {
      var k :| 0 <= k < |nodes| && nodes[k].id == id;
      assert (nodes + [n])[k].id == id;
    }
  }

  lemma SameIds(a: seq<Node>, b: seq<Node>, id: string)
    requires |a| == |b| && forall n :: 0 <= n < |a| ==> b[n].id == a[n].id
    ensures Known(b, id) <==> Known(a, id)
  {
    if Known(a, id) {
      var n :| 0 <= n < |a| && a[n].id == id;
      assert b[n].id == id;
    }
    if Known(b, id) {
      var n :| 0 <= n < |b| && b[n].id == id;
      assert a[n].id == id;
    }
  }

  /** The nodes known after a step. */
  lemma StepNodes(v: View, e: Event, id: string)
    requires Labelled(v.queues)
    ensures Known(Apply(v, e).nodes, id) <==>
            Known(v.nodes, id) || (e.Pass? && Items(v.queues) != [] && Known(e.cluster, id))
  {
    if e.Pass? {
      PassedAttempted(v, e.cluster);
      SortEmpty(Items(v.queues));
      JoinNamed(v.nodes, e.cluster, id);
      SameIds(if Items(v.queues) == [] then v.nodes else Join(v.nodes, e.cluster), Passed(v, e.cluster).nodes, id);
    } else if e.Deallocate? && FindInstance(v.instances, e.model, e.instance) < |v.instances| {
      var node := v.instances[FindInstance(v.instances, e.model, e.instance)].node;
      GiveBackKnown(v.nodes, node, e.gpus);
      SameIds(v.nodes, GiveBack(v.nodes, node, e.gpus), id);
    }
  }

  lemma {:induction false} JoinsConserve(v: View, events: seq<Event>, id: string)
    requires Ok(v) && CarefulRun(v, events) && !Known(v.nodes, id)
    ensures Total(Run(v, events), id) == JoinedWith(v, events, id)
    decreases |events|
  {
    UnknownTotal(v, id);
    if events != [] {
      var next := Apply(v, events[0]);
      ApplyOk(v, events[0]);
      StepNodes(v, events[0], id);
      if Known(next.nodes, id) {
        PassTotal(v, events[0].cluster, id);
        RunConserves(next, events[1..], id);
      } else {
        JoinsConserve(next, events[1..], id);
      }
    }
  }

  /** From an empty scheduler, over any careful run, the free, granted and recorded GPUs of a node
      add up to what was free on it when it joined. */
  lemma {:induction false} RunConservesJoined(events: seq<Event>, id: string)
    requires CarefulRun(EMPTY, events)
    ensures Total(Run(EMPTY, events), id) == JoinedWith(EMPTY, events, id)
  {
    JoinsConserve(EMPTY, events, id);
  }

  lemma EmptyOk()
    ensures Ok(EMPTY)
  {
  }

  // ---- Names and futures ---------------------------------------------------------------

  /** What is recorded under a name. */
  function Lookup(instances: seq<Instance>, model: string, instance: string): Option<Instance> {
    var k := FindInstance(instances, model, instance);
    if k < |instances| then Some(instances[k]) else None
  }

  predicate Named(i: Instance, model: string, instance: string) {
    i.model == model && i.instance == instance
  }

  lemma {:induction false} LookupAt(instances: seq<Instance>, k: nat, model: string, instance: string)
    requires k < |instances| && Named(instances[k], model, instance)
    requires forall j :: 0 <= j < k ==> !Named(instances[j], model, instance)
    ensures Lookup(instances, model, instance) == Some(instances[k])
  {
  }

  lemma {:induction false} LookupNone(instances: seq<Instance>, model: string, instance: string)
    requires forall j :: 0 <= j < |instances| ==> !Named(instances[j], model, instance)
    ensures Lookup(instances, model, instance) == None
  {
  }

  /** Entries in the same order, but for those under another name, give the same lookup. */
  lemma {:induction false} LookupOther(a: seq<Instance>, b: seq<Instance>, k: nat, entry: Instance, model: string, instance: string)
    requires k <= |a| && !Named(entry, model, instance) && (k < |a| ==> !Named(a[k], model, instance))
    requires b == (if k < |a| then a[k := entry] else a + [entry]) || (k < |a| && b == a[..k] + a[k + 1..])
    ensures Lookup(b, model, instance) == Lookup(a, model, instance)
  {
    var j := FindInstance(a, model, instance);
    if j == |a| {
      LookupNone(b, model, instance);
    } else if |b| >= |a| || j < k {
      assert b[j] == a[j];
      LookupAt(b, j, model, instance);
    } else {
      assert b[j - 1] == a[j];
      LookupAt(b, j - 1, model, instance);
    }
  }

  /** After recording, the instance of the granted request is found under its name, with its node
      and GPUs, and every other name finds what it found before. */
  lemma {:induction false} RecordLookup(v: View, id: nat)
    requires FindGrant(v.granted, id) < |v.granted|
    ensures var g := v.granted[FindGrant(v.granted, id)];
            var w := Recorded(v, id);
            && Lookup(w.instances, g.req.model, g.req.instance) == Some(Instance(g.req.model, g.req.instance, g.node, g.req.gpus))
            && forall model, instance :: model != g.req.model || instance != g.req.instance ==>
                 Lookup(w.instances, model, instance) == Lookup(v.instances, model, instance)
  {
    var g := v.granted[FindGrant(v.granted, id)];
    var w := Recorded(v, id);
    var k := FindInstance(v.instances, g.req.model, g.req.instance);
    var entry := Instance(g.req.model, g.req.instance, g.node, g.req.gpus);
    assert w.instances[k] == entry;
    LookupAt(w.instances, k, g.req.model, g.req.instance);
    forall model, instance | model != g.req.model || instance != g.req.instance
      ensures Lookup(w.instances, model, instance) == Lookup(v.instances, model, instance)
    {
      LookupOther(v.instances, w.instances, k, entry, model, instance);
    }
  }

  ghost predicate UniqueNames(instances: seq<Instance>) {
    forall j, k :: 0 <= j < k < |instances| ==> !Named(instances[j], instances[k].model, instances[k].instance)
  }

  /** After deallocating, nothing is found under the name, every other name finds what it found
      before, and the GPUs given back are free on the instance's node. */
  lemma {:induction false} DeallocateLookup(v: View, model: string, instance: string, gpus: nat)
    requires Ok(v) && UniqueNames(v.instances)
    ensures var w := Deallocated(v, model, instance, gpus);
            && Lookup(w.instances, model, instance) == None
            && (forall m, i :: m != model || i != instance ==> Lookup(w.instances, m, i) == Lookup(v.instances, m, i))
            && (Lookup(v.instances, model, instance) == None ==> w == v)
            && (forall e :: Lookup(v.instances, model, instance) == Some(e) ==>
                  forall id :: FreeOn(w.nodes, id) == FreeOn(v.nodes, id) + if id == e.node then gpus else 0)
  {
    var k := FindInstance(v.instances, model, instance);
    var w := Deallocated(v, model, instance, gpus);
    if k < |v.instances| {
      forall j | 0 <= j < |w.instances|
        ensures !Named(w.instances[j], model, instance)
      {
        if j < k {
          assert w.instances[j] == v.instances[j];
        } else {
          assert w.instances[j] == v.instances[j + 1];
        }
      }
      LookupNone(w.instances, model, instance);
      forall m, i | m != model || i != instance
        ensures Lookup(w.instances, m, i) == Lookup(v.instances, m, i)
      {
        LookupOther(v.instances, w.instances, k, v.instances[k], m, i);
      }
      forall id ensures FreeOn(w.nodes, id) == FreeOn(v.nodes, id) + if id == v.instances[k].node then gpus else 0 {
        GiveBackTotal(v.nodes, v.instances[k].node, gpus, id);
      }
    } else {
      LookupNone(v.instances, model, instance);
    }
  }

  lemma {:induction false} RecordUnique(v: View, id: nat)
    requires UniqueNames(v.instances)
    ensures UniqueNames(Recorded(v, id).instances)
  {
  }

  lemma {:induction false} DeallocateUnique(v: View, model: string, instance: string, gpus: nat)
    requires UniqueNames(v.instances)
    ensures UniqueNames(Deallocated(v, model, instance, gpus).instances)
  {
    var k := FindInstance(v.instances, model, instance);
    var w := Deallocated(v, model, instance, gpus).instances;
    if k < |v.instances| {
      forall a, b | 0 <= a < b < |w|
        ensures !Named(w[a], w[b].model, w[b].instance)
      {
        assert w[a] == v.instances[if a < k then a else a + 1] && w[b] == v.instances[if b < k then b else b + 1];
      }
    }
  }

  /** A granted request that is recorded and then deallocated with its own count leaves no entry
      under its name, and its GPUs are free again on the node it was granted. */
  lemma {:induction false} RecordThenDeallocate(v: View, id: nat)
    requires Ok(v) && UniqueNames(v.instances) && FindGrant(v.granted, id) < |v.granted|
    ensures var g := v.granted[FindGrant(v.granted, id)];
            var w := Deallocated(Recorded(v, id), g.req.model, g.req.instance, g.req.gpus);
            && Lookup(w.instances, g.req.model, g.req.instance) == None
            && forall n :: FreeOn(w.nodes, n) == FreeOn(v.nodes, n) + if n == g.node then g.req.gpus else 0
  {
    var g := v.granted[FindGrant(v.granted, id)];
    RecordedOk(v, id);
    RecordUnique(v, id);
    RecordLookup(v, id);
    DeallocateLookup(Recorded(v, id), g.req.model, g.req.instance, g.req.gpus);
    assert Lookup(Recorded(v, id).instances, g.req.model, g.req.instance) ==
           Some(Instance(g.req.model, g.req.instance, g.node, g.req.gpus));
  }

  /** The node a grant takes is the first with enough GPUs, and only that node loses them. */
  lemma {:induction false} GrantTakesFirst(v: View, r: Req)
    requires GrantOne(v, r).granted != v.granted
    ensures var w := GrantOne(v, r);
            exists n :: 0 <= n < |v.nodes| && v.nodes[n].free >= r.gpus && (forall m :: 0 <= m < n ==> v.nodes[m].free < r.gpus)
                        && w.granted == v.granted + [Grant(r, v.nodes[n].id)]
                        && w.nodes == v.nodes[n := Node(v.nodes[n].id, v.nodes[n].free - r.gpus)]
  {
    var n := FirstFit(v.nodes, r.gpus);
    assert v.nodes[n].free >= r.gpus;
  }

  // ---- Arrival and futures -------------------------------------------------------------

  /** In each queue the requests stand in the order in which they came. */
  ghost predicate InArrivalOrder(queues: seq<Queue>) {
    forall q :: 0 <= q < |queues| ==> Ascending(queues[q].requests)
  }

  ghost predicate Ascending(requests: seq<Req>) {
    forall a, b :: 0 <= a < b < |requests| ==> requests[a].id < requests[b].id
  }

  /** Every future belongs to one request, and is set at most once. */
  ghost predicate OwnFutures(v: View) {
    && (forall r, s :: Queued(v, r) && Queued(v, s) && r.id == s.id ==> r == s)
    && (forall g, r :: 0 <= g < |v.granted| && Queued(v, r) ==> v.granted[g].req.id != r.id)
    && (forall g, h :: 0 <= g < h < |v.granted| ==> v.granted[g].req.id != v.granted[h].req.id)
  }

  ghost predicate Tidy(v: View) {
    InArrivalOrder(v.queues) && OwnFutures(v) && UniqueNames(v.instances)
  }

  lemma {:induction false} RemoveAscending(requests: seq<Req>, r: Req)
    requires Ascending(requests)
    ensures Ascending(RemoveFirst(requests, r))
  {
    if requests != [] && requests[0] != r {
      var rest, w := RemoveFirst(requests[1..], r), RemoveFirst(requests, r);
      RemoveAscending(requests[1..], r);
      forall a, b | 0 <= a < b < |w|
        ensures w[a].id < w[b].id
      {
        assert w[b] == rest[b - 1];
        RemoveFirstMember(requests[1..], r, rest[b - 1]);
        assert a > 0 ==> w[a] == rest[a - 1];
      }
    }
  }

  lemma {:induction false} DequeueInOrder(queues: seq<Queue>, r: Req)
    requires InArrivalOrder(queues)
    ensures InArrivalOrder(Dequeue(queues, r))
  {
    if queues != [] {
      var w := Dequeue(queues, r);
      if queues[0].model == r.model {
        RemoveAscending(queues[0].requests, r);
        assert forall q :: 0 < q < |w| ==> w[q] == queues[q];
      } else {
        assert InArrivalOrder(queues[1..]);
        DequeueInOrder(queues[1..], r);
        assert forall q :: 0 < q < |w| ==> w[q] == Dequeue(queues[1..], r)[q - 1];
      }
    }
  }

  lemma {:induction false} AppendAscending(requests: seq<Req>, r: Req)
    requires Ascending(requests) && forall x :: x in requests ==> x.id < r.id
    ensures Ascending(requests + [r])
  {
  }

  lemma {:induction false} EnqueueInOrder(queues: seq<Queue>, r: Req)
    requires InArrivalOrder(queues) && forall q, x :: 0 <= q < |queues| && x in queues[q].requests ==> x.id < r.id
    ensures InArrivalOrder(Enqueue(queues, r))
  {
    var w := Enqueue(queues, r);
    if queues != [] {
      if queues[0].model == r.model {
        AppendAscending(queues[0].requests, r);
        assert forall q :: 0 < q < |w| ==> w[q] == queues[q];
      } else {
        assert InArrivalOrder(queues[1..]);
        EnqueueInOrder(queues[1..], r);
        assert forall q :: 0 < q < |w| ==> w[q] == Enqueue(queues[1..], r)[q - 1];
      }
    }
  }

  lemma {:induction false} QueuedAt(queues: seq<Queue>, q: nat, x: Req)
    requires q < |queues| && x in queues[q].requests
    ensures Count(queues, x) > 0
  {
    if q > 0 {
      QueuedAt(queues[1..], q - 1, x);
    }
  }

  lemma {:induction false} EnqueueTidy(v: View, r: Req)
    requires Ok(v) && Tidy(v) && r.id == v.nextId
    ensures Tidy(v.(queues := Enqueue(v.queues, r), nextId := v.nextId + 1))
  {
    EnqueueMeans(v.queues, r);
    forall q, x | 0 <= q < |v.queues| && x in v.queues[q].requests
      ensures x.id < r.id
    {
      QueuedAt(v.queues, q, x);
    }
    EnqueueInOrder(v.queues, r);
  }

  lemma {:induction false} GrantOneTidy(v: View, r: Req)
    requires Labelled(v.queues) && AtMostOnce(v.queues) && Tidy(v) && Queued(v, r)
    ensures Tidy(GrantOne(v, r))
    ensures forall x :: x != r ==> Count(GrantOne(v, r).queues, x) == Count(v.queues, x)
  {
    GrantOneMeans(v, r);
    DequeueMeans(v.queues, r);
    DequeueInOrder(v.queues, r);
    var w := GrantOne(v, r);
    if w.granted != v.granted {
      assert w.granted == v.granted + [w.granted[|v.granted|]] && w.granted[|v.granted|].req == r;
      GrantedFutures(v, w, r);
    }
  }

  lemma {:induction false} GrantedFutures(v: View, w: View, r: Req)
    requires OwnFutures(v) && Queued(v, r) && AtMostOnce(v.queues)
    requires |w.granted| == |v.granted| + 1 && w.granted[..|v.granted|] == v.granted && w.granted[|v.granted|].req == r
    requires forall x :: Count(w.queues, x) == Count(v.queues, x) - if x == r then 1 else 0
    ensures OwnFutures(w)
  {
    assert forall g :: 0 <= g < |v.granted| ==> w.granted[g] == w.granted[..|v.granted|][g];
    assert !Queued(w, r) && forall x :: Queued(w, x) ==> Queued(v, x);
  }

  lemma {:induction false} GrantAllTidy(v: View, items: seq<Item>)
    requires Labelled(v.queues) && AtMostOnce(v.queues) && Tidy(v)
    requires forall k :: 0 <= k < |items| ==> Queued(v, items[k].req)
    requires forall j, k :: 0 <= j < k < |items| ==> items[j].req != items[k].req
    ensures Tidy(GrantAll(v, items))
    decreases |items|
  {
    if items != [] {
      var next := GrantOne(v, items[0].req);
      GrantOneMeans(v, items[0].req);
      GrantOneAttempted(v, items[0].req);
      GrantOneTidy(v, items[0].req);
      forall k | 0 <= k < |items[1..]|
        ensures Queued(next, items[1..][k].req)
      {
        assert items[1..][k] == items[k + 1] && items[0].req != items[k + 1].req;
      }
      GrantAllTidy(next, items[1..]);
    }
  }

  lemma {:induction false} PassTidy(v: View, cluster: seq<Node>)
    requires Ok(v) && Tidy(v)
    ensures Tidy(Passed(v, cluster))
  {
    var items := SortByIdx(Items(v.queues));
    forall k | 0 <= k < |items|
      ensures Queued(v, items[k].req)
      ensures forall j :: 0 <= j < |items| && j != k ==> items[j].req != items[k].req
    {
      TriedOnce(v, k);
    }
    if items != [] {
      GrantAllTidy(v.(nodes := Join(v.nodes, cluster)), items);
    }
  }

  lemma {:induction false} RecordTidy(v: View, id: nat)
    requires Tidy(v)
    ensures Tidy(Recorded(v, id))
  {
    RecordUnique(v, id);
    var g, w := FindGrant(v.granted, id), Recorded(v, id);
    if g < |v.granted| {
      assert forall k :: 0 <= k < |w.granted| ==> w.granted[k] == v.granted[if k < g then k else k + 1];
    }
  }

  /** In every reachable state the queues are in the order of arrival, no future is shared or set
      twice, and no two instances have one name. */
  lemma {:induction false} DeallocateTidy(v: View, model: string, instance: string, gpus: nat)
    requires Tidy(v)
    ensures Tidy(Deallocated(v, model, instance, gpus))
  {
    DeallocateUnique(v, model, instance, gpus);
  }

  lemma {:induction false} StepTidy(v: View, e: Event)
    requires Ok(v) && Tidy(v)
    ensures Tidy(Apply(v, e))
  {
    match e
    case Allocate(model, instance, gpus, time) => EnqueueTidy(v, Req(v.nextId, model, instance, gpus, time));
    case Pass(cluster) => PassTidy(v, cluster);
    case Record(id) => RecordTidy(v, id);
    case Deallocate(model, instance, gpus) => DeallocateTidy(v, model, instance, gpus);
    case _ =>
  }

  lemma {:induction false} RunTidy(v: View, events: seq<Event>)
    requires Ok(v) && Tidy(v)
    ensures Ok(Run(v, events)) && Tidy(Run(v, events))
    decreases |events|
  {
    if events != [] {
      ApplyOk(v, events[0]);
      StepTidy(v, events[0]);
      RunTidy(Apply(v, events[0]), events[1..]);
    }
  }

  // ---- When the order of arrival is respected ------------------------------------------

  /** The order in which a pass tries requests: by position in their queues, and for equal
      positions by the order of the queues. */
  predicate Before(q: nat, a: nat, p: nat, b: nat) {
    a < b || (a == b && q < p)
  }

  /** `x` stands somewhere before `y`. */
  ghost predicate Precedes(items: seq<Item>, x: Item, y: Item) {
    exists i, j :: 0 <= i < j < |items| && items[i] == x && items[j] == y
  }

  lemma PrecedesAt(items: seq<Item>, i: nat, j: nat)
    requires i < j < |items|
    ensures Precedes(items, items[i], items[j])
  {
  }

  lemma PrecedesInFront(items: seq<Item>, x: Item, y: Item, z: Item)
    requires Precedes(items, x, y) || (x == z && y in items)
    ensures Precedes([z] + items, x, y)
  {
    var w := [z] + items;
    if x == z && y in items {
      var j :| 0 <= j < |items| && items[j] == y;
      assert w[0] == x && w[j + 1] == y;
    } else {
      var i, j :| 0 <= i < j < |items| && items[i] == x && items[j] == y;
      assert w[i + 1] == x && w[j + 1] == y;
    }
  }

  lemma PrecedesTail(items: seq<Item>, x: Item, y: Item)
    requires items != [] && Precedes(items, x, y)
    ensures Precedes(items[1..], x, y) || (x == items[0] && y in items[1..])
  {
    var i, j :| 0 <= i < j < |items| && items[i] == x && items[j] == y;
    assert items[1..][j - 1] == y;
    assert i > 0 ==> items[1..][i - 1] == x;
  }

  lemma {:induction false} InsertPrecedes(z: Item, s: seq<Item>, x: Item, y: Item)
    requires SortedByIdx(s)
    requires Precedes(s, x, y) || (x == z && y in s && x.idx <= y.idx)
    ensures Precedes(Insert(z, s), x, y)
  {
    if s == [] || z.idx <= s[0].idx {
      PrecedesInFront(s, x, y, z);
    } else {
      InsertMeans(z, s[1..]);
      if Precedes(s, x, y) {
        PrecedesTail(s, x, y);
      }
      if Precedes(s[1..], x, y) || (x == z && y in s[1..]) {
        InsertPrecedes(z, s[1..], x, y);
      }
      PrecedesInFront(Insert(z, s[1..]), x, y, s[0]);
    }
  }

  /** The sort is stable. */
  lemma {:induction false} SortPrecedes(items: seq<Item>, x: Item, y: Item)
    requires Precedes(items, x, y) && x.idx <= y.idx
    ensures Precedes(SortByIdx(items), x, y)
  {
    SortMeans(items[1..]);
    PrecedesTail(items, x, y);
    if Precedes(items[1..], x, y) {
      SortPrecedes(items[1..], x, y);
    }
    InsertPrecedes(items[0], SortByIdx(items[1..]), x, y);
  }

  lemma PrecedesAppend(a: seq<Item>, b: seq<Item>, x: Item, y: Item)
    requires Precedes(b, x, y) || (x in a && y in b)
    ensures Precedes(a + b, x, y)
  {
    if Precedes(b, x, y) {
      var i, j :| 0 <= i < j < |b| && b[i] == x && b[j] == y;
      assert (a + b)[|a| + i] == x && (a + b)[|a| + j] == y;
    } else {
      var i :| 0 <= i < |a| && a[i] == x;
      var j :| 0 <= j < |b| && b[j] == y;
      assert (a + b)[i] == x && (a + b)[|a| + j] == y;
    }
  }

  lemma {:induction false} ItemsPrecede(queues: seq<Queue>, q: nat, a: nat, p: nat, b: nat)
    requires q < p < |queues| && a < |queues[q].requests| && b < |queues[p].requests|
    ensures Precedes(Items(queues), Item(a, queues[q].requests[a]), Item(b, queues[p].requests[b]))
  {
    var x, y := Item(a, queues[q].requests[a]), Item(b, queues[p].requests[b]);
    ItemsMeans(queues[1..], p - 1, b);
    if q == 0 {
      ItemsFromMeans(queues[0].requests, 0, a);
    } else {
      ItemsPrecede(queues[1..], q - 1, a, p - 1, b);
    }
    PrecedesAppend(ItemsFrom(queues[0].requests, 0), Items(queues[1..]), x, y);
  }

  /** A pass tries the requests in this order. */
  lemma {:induction false} TriedInOrder(queues: seq<Queue>, q: nat, a: nat, p: nat, b: nat)
    requires q < |queues| && p < |queues| && a < |queues[q].requests| && b < |queues[p].requests| && Before(q, a, p, b)
    ensures Precedes(SortByIdx(Items(queues)), Item(a, queues[q].requests[a]), Item(b, queues[p].requests[b]))
  {
    var x, y := Item(a, queues[q].requests[a]), Item(b, queues[p].requests[b]);
    var items := SortByIdx(Items(queues));
    if a < b {
      SortMeans(Items(queues));
      ItemsMeans(queues, q, a);
      ItemsMeans(queues, p, b);
      var i :| 0 <= i < |items| && items[i] == x;
      var j :| 0 <= j < |items| && items[j] == y;
      assert !(j <= i);
      PrecedesAt(items, i, j);
    } else {
      ItemsPrecede(queues, q, a, p, b);
      SortPrecedes(Items(queues), x, y);
    }
  }

  /** One pass over the given nodes. */
  function PassOver(v: View, nodes: seq<Node>): View {
    Passed(v.(nodes := nodes), [])
  }

  lemma PassOverMeans(v: View, nodes: seq<Node>)
    ensures PassOver(v, nodes) == GrantAll(v.(nodes := nodes), SortByIdx(Items(v.queues)))
  {
    SortEmpty(Items(v.queues));
  }

  /** Whatever the nodes, the second request is not granted while the first keeps waiting. */
  ghost predicate NeverOvertaken(v: View, r: Req, s: Req) {
    forall nodes: seq<Node> :: Queued(PassOver(v, nodes), r) ==> Queued(PassOver(v, nodes), s)
  }

  lemma TriedOnce(v: View, j: nat)
    requires Ok(v) && j < |SortByIdx(Items(v.queues))|
    ensures var items := SortByIdx(Items(v.queues));
            && Queued(v, items[j].req)
            && forall k :: 0 <= k < |items| && k != j ==> items[k].req != items[j].req
  {
    var items := SortByIdx(Items(v.queues));
    SortMeans(Items(v.queues));
    ItemsCount(v.queues, items[j].req);
    CountedAtLeast(items, j);
    forall k | 0 <= k < |items| && k != j
      ensures items[k].req != items[j].req
    {
      if items[k].req == items[j].req {
        CountedOnce(items, if k < j then k else j, if k < j then j else k);
      }
    }
  }

  lemma TriedFirstWaits(v: View, i: nat, j: nat)
    requires Ok(v) && i < j < |SortByIdx(Items(v.queues))|
    requires var items := SortByIdx(Items(v.queues));
             items[i].req.gpus <= items[j].req.gpus && items[i].req.id !in v.cancelled
    ensures NeverOvertaken(v, SortByIdx(Items(v.queues))[i].req, SortByIdx(Items(v.queues))[j].req)
  {
    var items := SortByIdx(Items(v.queues));
    TriedOnce(v, j);
    forall nodes: seq<Node>
      ensures Queued(PassOver(v, nodes), items[i].req) ==> Queued(PassOver(v, nodes), items[j].req)
    {
      PassOverMeans(v, nodes);
      GrantAllOrder(v.(nodes := nodes), items, i, j);
    }
  }

  /** Of two requests in the queue of one model, the later one is not granted for at least as many
      GPUs while the earlier one keeps waiting; so among requests of equal size the grants of a
      pass form a prefix of the queue. */
  lemma GrantsFormPrefix(v: View, cluster: seq<Node>, q: nat, a: nat, b: nat)
    requires Ok(v) && q < |v.queues| && a < b < |v.queues[q].requests|
    requires var first, later := v.queues[q].requests[a], v.queues[q].requests[b];
             first.gpus <= later.gpus && first.id !in v.cancelled
    ensures Queued(Passed(v, cluster), v.queues[q].requests[a]) ==> Queued(Passed(v, cluster), v.queues[q].requests[b])
  {
    var first, later := v.queues[q].requests[a], v.queues[q].requests[b];
    var items := SortByIdx(Items(v.queues));
    TriedInOrder(v.queues, q, a, q, b);
    var i, j :| 0 <= i < j < |items| && items[i] == Item(a, first) && items[j] == Item(b, later);
    TriedFirstWaits(v, i, j);
    PassOverMeans(v, Join(v.nodes, cluster));
    assert PassOver(v, Join(v.nodes, cluster)) == Passed(v, cluster);
  }

  // The converse: one node with just enough GPUs for all that is tried up to the other request.

  /** GPUs that the first `n` items ask for, without those given up. */
  function Need(items: seq<Item>, n: nat, cancelled: set<nat>): nat
    requires n <= |items|
    decreases n
  {
    if n == 0 then 0
    else (if items[0].req.id in cancelled then 0 else items[0].req.gpus) + Need(items[1..], n - 1, cancelled)
  }

  lemma {:induction false} GrantOnNode(v: View, r: Req, id: string, free: nat)
    requires Labelled(v.queues) && v.nodes == [Node(id, free)] && r.gpus <= free && r.id !in v.cancelled
    ensures GrantOne(v, r).nodes == [Node(id, free - r.gpus)] && GrantOne(v, r).cancelled == v.cancelled
    ensures GrantOne(v, r).queues == Dequeue(v.queues, r)
  {
    assert FirstFit(v.nodes, r.gpus) == 0;
  }

  lemma {:induction false} Exhausts(v: View, items: seq<Item>, j: nat, r: Req, id: string)
    requires Labelled(v.queues) && AtMostOnce(v.queues) && j < |items| && items[j].req.id !in v.cancelled && r.gpus > 0
    requires v.nodes == [Node(id, Need(items, j + 1, v.cancelled))]
    requires forall k :: 0 <= k <= j ==> items[k].req != r
    ensures Count(GrantAll(v, items).queues, items[j].req) == 0
    ensures Count(GrantAll(v, items).queues, r) == Count(v.queues, r)
    decreases |items|
  {
    var x := items[0].req;
    var next := GrantOne(v, x);
    GrantOneMeans(v, x);
    GrantOneAttempted(v, x);
    DequeueMeans(v.queues, x);
    if x.id !in v.cancelled {
      GrantOnNode(v, x, id, Need(items, j + 1, v.cancelled));
    }
    if j == 0 {
      GrantAllAttempted(next, items[1..]);
      StaysQueued(next, items[1..], r);
    } else {
      Exhausts(next, items[1..], j - 1, r, id);
    }
  }

  lemma TriedLaterOvertaken(v: View, i: nat, j: nat)
    requires Ok(v) && i < j < |SortByIdx(Items(v.queues))|
    requires var items := SortByIdx(Items(v.queues));
             items[i].req.id !in v.cancelled && items[j].req.gpus > 0
    ensures !NeverOvertaken(v, SortByIdx(Items(v.queues))[j].req, SortByIdx(Items(v.queues))[i].req)
  {
    var items := SortByIdx(Items(v.queues));
    var nodes := [Node("n", Need(items, i + 1, v.cancelled))];
    TriedOnce(v, j);
    PassOverMeans(v, nodes);
    Exhausts(v.(nodes := nodes), items, i, items[j].req, "n");
    assert Queued(PassOver(v, nodes), items[j].req) && !Queued(PassOver(v, nodes), items[i].req);
  }

  /** Of two requests that wait, in whatever queues, the one for no more GPUs is never overtaken if
      and only if a pass tries it first: times play no part. */
  lemma NeverOvertakenIffBefore(v: View, q: nat, a: nat, p: nat, b: nat)
    requires Ok(v) && q < |v.queues| && p < |v.queues| && a < |v.queues[q].requests| && b < |v.queues[p].requests|
    requires (q, a) != (p, b)
    requires var r, s := v.queues[q].requests[a], v.queues[p].requests[b];
             0 < r.gpus <= s.gpus && r.id !in v.cancelled && s.id !in v.cancelled
    ensures NeverOvertaken(v, v.queues[q].requests[a], v.queues[p].requests[b]) <==> Before(q, a, p, b)
  {
    var r, s := v.queues[q].requests[a], v.queues[p].requests[b];
    var items := SortByIdx(Items(v.queues));
    if Before(q, a, p, b) {
      TriedInOrder(v.queues, q, a, p, b);
      var i, j :| 0 <= i < j < |items| && items[i] == Item(a, r) && items[j] == Item(b, s);
      TriedFirstWaits(v, i, j);
    } else {
      TriedInOrder(v.queues, p, b, q, a);
      var i, j :| 0 <= i < j < |items| && items[i] == Item(b, s) && items[j] == Item(a, r);
      TriedLaterOvertaken(v, i, j);
    }
  }

  /** A waiting request that came earlier, for no more GPUs than another: `(q, a)` is its place. */
  ghost predicate EarlierAndSmaller(v: View, q: nat, a: nat, p: nat, b: nat) {
    && q < |v.queues| && p < |v.queues| && a < |v.queues[q].requests| && b < |v.queues[p].requests|
    && var r, s := v.queues[q].requests[a], v.queues[p].requests[b];
       r.id < s.id && 0 < r.gpus <= s.gpus && r.id !in v.cancelled && s.id !in v.cancelled
  }

  ghost predicate FirstComeFirstServed(v: View) {
    forall q: nat, a: nat, p: nat, b: nat :: EarlierAndSmaller(v, q, a, p, b) ==>
      NeverOvertaken(v, v.queues[q].requests[a], v.queues[p].requests[b])
  }

  /** First come, first served holds of the waiting requests if and only if the earlier ones stand
      further to the front of their queues. */
  lemma FirstComeFirstServedIff(v: View)
    requires Ok(v)
    ensures FirstComeFirstServed(v) <==>
            forall q: nat, a: nat, p: nat, b: nat :: EarlierAndSmaller(v, q, a, p, b) ==> Before(q, a, p, b)
  {
    forall q: nat, a: nat, p: nat, b: nat | EarlierAndSmaller(v, q, a, p, b)
      ensures NeverOvertaken(v, v.queues[q].requests[a], v.queues[p].requests[b]) <==> Before(q, a, p, b)
    {
      NeverOvertakenIffBefore(v, q, a, p, b);
    }
  }

  /** With the requests of one model only, first come, first served holds in every reachable
      state. */
  lemma {:induction false} OneModelFirstCome(events: seq<Event>)
    requires |Run(EMPTY, events).queues| <= 1
    ensures FirstComeFirstServed(Run(EMPTY, events))
  {
    RunTidy(EMPTY, events);
    OneQueueFirstCome(Run(EMPTY, events));
  }

  lemma OneQueueFirstCome(v: View)
    requires Ok(v) && Tidy(v) && |v.queues| <= 1
    ensures FirstComeFirstServed(v)
  {
    forall q: nat, a: nat, p: nat, b: nat | EarlierAndSmaller(v, q, a, p, b)
      ensures Before(q, a, p, b)
    {
      EarlierInFront(v.queues[0].requests, a, b);
    }
    FirstComeFirstServedIff(v);
  }

  lemma EarlierInFront(requests: seq<Req>, a: nat, b: nat)
    requires Ascending(requests) && a < |requests| && b < |requests| && requests[a].id < requests[b].id
    ensures a < b
  {
  }

  // ---- Not the order of arrival --------------------------------------------------------

  /** Requests are served by their position in the queue of their model, not by their time: a
      request of another model that came last is granted before the second of this one. */
  lemma NotArrivalOrder()
    ensures var first, second := Req(0, "a", "x", 1, 1.0), Req(1, "a", "y", 1, 2.0);
            var last := Req(2, "b", "z", 1, 3.0);
            var v := Run(EMPTY, [Allocate("a", "x", 1, 1.0), Allocate("a", "y", 1, 2.0), Allocate("b", "z", 1, 3.0)]);
            Passed(v, [Node("n", 2)]).granted == [Grant(first, "n"), Grant(last, "n")]
  {
    var first, second := Req(0, "a", "x", 1, 1.0), Req(1, "a", "y", 1, 2.0);
    var last := Req(2, "b", "z", 1, 3.0);
    ThreeArrive();
    var v := View([Queue("a", [first, second]), Queue("b", [last])], [], [], [], {}, 3);
    ThreeItems(v, first, second, last);
    assert Join([], [Node("n", 2)]) == [Node("n", 2)];
    ThreeGrants(v.(nodes := [Node("n", 2)]), first, second, last);
  }

  lemma {:induction false} ThreeGrants(v: View, first: Req, second: Req, last: Req)
    requires v.nodes == [Node("n", 2)] && v.granted == [] && v.cancelled == {}
    requires first.gpus == 1 && second.gpus == 1 && last.gpus == 1
    ensures GrantAll(v, [Item(0, first), Item(0, last), Item(1, second)]).granted == [Grant(first, "n"), Grant(last, "n")]
  {
    var one := GrantOne(v, first);
    assert one.nodes == [Node("n", 1)] && one.granted == [Grant(first, "n")];
    var two := GrantOne(one, last);
    assert two.nodes == [Node("n", 0)] && two.granted == [Grant(first, "n"), Grant(last, "n")];
    assert GrantOne(two, second) == two;
    var items := [Item(0, first), Item(0, last), Item(1, second)];
    assert items[1..] == [items[1], items[2]] && items[1..][1..] == [items[2]] && items[1..][1..][1..] == [];
    assert GrantAll(two, [items[2]]) == two && GrantAll(one, items[1..]) == two;
  }

  lemma ThreeArrive()
    ensures var first, second := Req(0, "a", "x", 1, 1.0), Req(1, "a", "y", 1, 2.0);
            var last := Req(2, "b", "z", 1, 3.0);
            Run(EMPTY, [Allocate("a", "x", 1, 1.0), Allocate("a", "y", 1, 2.0), Allocate("b", "z", 1, 3.0)]) ==
            View([Queue("a", [first, second]), Queue("b", [last])], [], [], [], {}, 3)
  {
    var first, second := Req(0, "a", "x", 1, 1.0), Req(1, "a", "y", 1, 2.0);
    var last := Req(2, "b", "z", 1, 3.0);
    var events := [Allocate("a", "x", 1, 1.0), Allocate("a", "y", 1, 2.0), Allocate("b", "z", 1, 3.0)];
    assert events[1..] == [events[1], events[2]] && events[1..][1..] == [events[2]] && events[1..][1..][1..] == [];
    var one := View([Queue("a", [first])], [], [], [], {}, 1);
    assert Apply(EMPTY, events[0]) == one;
    var two := View([Queue("a", [first, second])], [], [], [], {}, 2);
    assert one.queues[1..] == [] && [first] + [second] == [first, second];
    assert Enqueue(one.queues, second) == two.queues;
    assert Apply(one, events[1]) == two;
    assert "a"[0] != "b"[0];
    assert two.queues[1..] == [] && Enqueue([], last) == [Queue("b", [last])];
    assert Apply(two, events[2]) == View([Queue("a", [first, second]), Queue("b", [last])], [], [], [], {}, 3);
  }

  lemma ThreeItems(v: View, first: Req, second: Req, last: Req)
    requires v.queues == [Queue("a", [first, second]), Queue("b", [last])]
    ensures SortByIdx(Items(v.queues)) == [Item(0, first), Item(0, last), Item(1, second)]
  {
    assert [first, second][1..] == [second] && [last][1..] == [];
    assert ItemsFrom([second], 1) == [Item(1, second)];
    assert ItemsFrom([first, second], 0) == [Item(0, first), Item(1, second)];
    assert ItemsFrom([last], 0) == [Item(0, last)];
    assert v.queues[1..] == [Queue("b", [last])] && v.queues[1..][1..] == [];
    assert Items(v.queues[1..]) == [Item(0, last)];
    var items := [Item(0, first), Item(1, second), Item(0, last)];
    assert Items(v.queues) == items;
    assert items[1..] == [Item(1, second), Item(0, last)] && items[1..][1..] == [Item(0, last)];
    assert SortByIdx([Item(0, last)]) == [Item(0, last)];
    assert [Item(0, last)][1..] == [];
    assert Insert(Item(1, second), [Item(0, last)]) == [Item(0, last), Item(1, second)];
    assert SortByIdx(items[1..]) == [Item(0, last), Item(1, second)];
  }

  // ---- The scheduler -------------------------------------------------------------------

  class FcfsScheduler {
    var modelLoadingQueues: seq<Queue>
    var workerNodes: seq<Node>
    var modelInstance: seq<Instance>
    var setFutures: seq<Grant>
    var cancelledFutures: set<nat>
    var nextFuture: nat

    ghost function Current(): View
      reads this
    {
      View(modelLoadingQueues, workerNodes, modelInstance, setFutures, cancelledFutures, nextFuture)
    }

    ghost predicate Valid()
      reads this
    {
      Ok(Current())
    }

    constructor ()
      ensures Valid() && Current() == EMPTY
    {
      modelLoadingQueues, workerNodes, modelInstance := [], [], [];
      setFutures, cancelledFutures, nextFuture := [], {}, 0;
    }

    /** `allocate_resource` up to the point where it waits for its future. */
    method AllocateResource(model: string, instance: string, gpus: nat, time: real) returns (future: nat)
      requires Valid()
      modifies this`modelLoadingQueues, this`nextFuture
      ensures Valid() && Current() == Apply(old(Current()), Allocate(model, instance, gpus, time))
      ensures future == old(nextFuture) && Queued(Current(), Req(future, model, instance, gpus, time))
    {
      future := nextFuture;
      var r := Req(future, model, instance, gpus, time);
      ApplyOk(Current(), Allocate(model, instance, gpus, time));
      EnqueueMeans(modelLoadingQueues, r);
      nextFuture := nextFuture + 1;
      modelLoadingQueues := Enqueue(modelLoadingQueues, r);
      assert Current() == Apply(old(Current()), Allocate(model, instance, gpus, time));
    }

    /** The rest of `allocate_resource`, once the future is set. */
    method RecordInstance(future: nat) returns (node: string)
      requires Valid() && FindGrant(setFutures, future) < |setFutures|
      modifies this`modelInstance, this`setFutures
      ensures Valid() && Current() == Apply(old(Current()), Record(future))
      ensures node == old(setFutures)[FindGrant(old(setFutures), future)].node && Known(workerNodes, node)
      ensures var r := old(setFutures)[FindGrant(old(setFutures), future)].req;
              Lookup(modelInstance, r.model, r.instance) == Some(Instance(r.model, r.instance, node, r.gpus))
    {
      ApplyOk(Current(), Record(future));
      RecordLookup(Current(), future);
      var g := FindGrant(setFutures, future);
      var r := setFutures[g].req;
      node := setFutures[g].node;
      setFutures := setFutures[..g] + setFutures[g + 1..];
      var k := FindInstance(modelInstance, r.model, r.instance);
      if k < |modelInstance| {
        modelInstance := modelInstance[k := Instance(r.model, r.instance, node, r.gpus)];
      } else {
        modelInstance := modelInstance + [Instance(r.model, r.instance, node, r.gpus)];
      }
      assert Current() == Apply(old(Current()), Record(future));
    }

    /** `deallocate_resource`. */
    method DeallocateResource(model: string, instance: string, gpus: nat)
      requires Valid()
      modifies this`modelInstance, this`workerNodes
      ensures Valid() && Current() == Apply(old(Current()), Deallocate(model, instance, gpus))
    {
      ApplyOk(Current(), Deallocate(model, instance, gpus));
      var k := FindInstance(modelInstance, model, instance);
      if k == |modelInstance| {
        return;
      }
      var node := modelInstance[k].node;
      modelInstance := modelInstance[..k] + modelInstance[k + 1..];
      if !Known(workerNodes, node) {
        assert false;
      }
      workerNodes := GiveBack(workerNodes, node, gpus);
      assert Current() == Apply(old(Current()), Deallocate(model, instance, gpus));
    }

    /** One pass of `_control_loop`, for the nodes the cluster has now. */
    method ControlPass(cluster: seq<Node>)
      requires Valid()
      modifies this`modelLoadingQueues, this`workerNodes, this`setFutures
      ensures Valid() && Current() == Apply(old(Current()), Pass(cluster))
    {
      ApplyOk(Current(), Pass(cluster));
      var loadingRequests := CollectRequests();
      SortEmpty(loadingRequests);
      if |loadingRequests| > 0 {
        GetWorkerNodes(cluster);
        loadingRequests := SortByIdx(loadingRequests);
        for x := 0 to |loadingRequests|
          invariant GrantAll(Current(), loadingRequests[x..]) == Passed(old(Current()), cluster)
        {
          TryGrant(loadingRequests[x].req);
          assert loadingRequests[x..][1..] == loadingRequests[x + 1..];
        }
      }
    }

    method CollectRequests() returns (loadingRequests: seq<Item>)
      ensures loadingRequests == Items(modelLoadingQueues)
    {
      loadingRequests := [];
      for q := 0 to |modelLoadingQueues|
        invariant loadingRequests + Items(modelLoadingQueues[q..]) == Items(modelLoadingQueues)
      {
        var items := NumberRequests(modelLoadingQueues[q].requests);
        assert modelLoadingQueues[q..][1..] == modelLoadingQueues[q + 1..];
        assert Items(modelLoadingQueues[q..]) == items + Items(modelLoadingQueues[q + 1..]);
        loadingRequests := loadingRequests + items;
      }
    }

    /** The requests of one queue, with their positions. */
    method NumberRequests(requests: seq<Req>) returns (items: seq<Item>)
      ensures items == ItemsFrom(requests, 0)
    {
      items := [];
      for idx := 0 to |requests|
        invariant items + ItemsFrom(requests[idx..], idx) == ItemsFrom(requests, 0)
      {
        assert requests[idx..][1..] == requests[idx + 1..];
        items := items + [Item(idx, requests[idx])];
      }
    }

    /** `_get_worker_nodes`: the result is the scheduler's own table, so what the pass takes off a
        node is taken off there. */
    method GetWorkerNodes(cluster: seq<Node>)
      modifies this`workerNodes
      ensures workerNodes == Join(old(workerNodes), cluster)
    {
      for x := 0 to |cluster|
        invariant Join(workerNodes, cluster[x..]) == Join(old(workerNodes), cluster)
      {
        if !Known(workerNodes, cluster[x].id) {
          workerNodes := workerNodes + [cluster[x]];
        }
        assert cluster[x..][1..] == cluster[x + 1..];
      }
    }

    /** The attempt for one request: the first node with enough GPUs is taken, unless the caller
        has given up. */
    method TryGrant(r: Req)
      modifies this`modelLoadingQueues, this`workerNodes, this`setFutures
      ensures Current() == GrantOne(old(Current()), r)
    {
      for n := 0 to |workerNodes|
        invariant Current() == old(Current()) && forall m :: 0 <= m < n ==> workerNodes[m].free < r.gpus
      {
        if workerNodes[n].free >= r.gpus {
          if r.id in cancelledFutures {
            return;
          }
          assert FirstFit(workerNodes, r.gpus) == n;
          modelLoadingQueues := Dequeue(modelLoadingQueues, r);
          setFutures := setFutures + [Grant(r, workerNodes[n].id)];
          workerNodes := workerNodes[n := Node(workerNodes[n].id, workerNodes[n].free - r.gpus)];
          return;
        }
      }
    }

    method GiveUp(future: nat)
      requires Valid()
      modifies this`cancelledFutures
      ensures Valid() && Current() == Apply(old(Current()), Cancel(future))
      ensures cancelledFutures == old(cancelledFutures) + {future}
    {
      ApplyOk(Current(), Cancel(future));
      cancelledFutures := cancelledFutures + {future};
      assert Current() == Apply(old(Current()), Cancel(future));
    }

    /** `shutdown` drops all queues. */
    method DropQueues()
      requires Valid()
      modifies this`modelLoadingQueues
      ensures Valid() && Current() == Apply(old(Current()), Shutdown) && modelLoadingQueues == []
    {
      ApplyOk(Current(), Shutdown);
      modelLoadingQueues := [];
      assert Current() == Apply(old(Current()), Shutdown);
    }
  }
}
