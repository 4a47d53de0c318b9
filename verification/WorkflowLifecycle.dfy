/** Creating, editing, publishing and activating workflows: what every stored workflow
    satisfies after any run of requests. */
module WorkflowLifecycle {
  import opened Options
  import opened WorkflowGraph
  import opened WorkflowValidation

  type WorkflowId = nat

  datatype WorkflowStatus = Draft | Active | Paused

  datatype Workflow = Workflow(
    nodes: seq<Node>,
    edges: seq<Edge>,
    publishedNodes: seq<Node>,
    publishedEdges: seq<Edge>,
    status: WorkflowStatus,
    version: nat,
    updatedAt: nat)

  type Store = map<WorkflowId, Workflow>

  /** `permitted` is the answer of the run-as authorization, a service outside this model. */
  datatype Request =
    | Create(newId: WorkflowId, newNodes: seq<Node>, newEdges: seq<Edge>, permitted: bool)
    | Update(id: WorkflowId, nodes: Option<seq<Node>>, edges: Option<seq<Edge>>, seenAt: Option<nat>, permitted: bool)
    | Publish(id: WorkflowId)
    | SetStatus(id: WorkflowId, status: WorkflowStatus)
    | Duplicate(id: WorkflowId, newId: WorkflowId)
    | Delete(id: WorkflowId)

  datatype Reply = Done | NotFound | Conflict | BadRequest | NotStored

  const NODE_KINDS := {"trigger", "condition", "action", "wait"}

  predicate NodeConfigOk(n: Node) {
    n.kind in NODE_KINDS && (n.kind in {"action", "wait"} ==> n.configOk)
  }

  predicate NodeConfigsOk(nodes: seq<Node>) {
    forall i :: 0 <= i < |nodes| ==> NodeConfigOk(nodes[i])
  }

  /** The schema's `required` string paths refuse the empty string. */
  predicate NodesStorable(nodes: seq<Node>) {
    forall i :: 0 <= i < |nodes| ==> nodes[i].id != ""
  }

  predicate EdgesStorable(edges: seq<Edge>) {
    forall i :: 0 <= i < |edges| ==> edges[i].id != "" && edges[i].source != "" && edges[i].target != ""
  }

  predicate HasKind(nodes: seq<Node>, kind: string) {
    exists i :: 0 <= i < |nodes| && nodes[i].kind == kind
  }

  // ---------------------------------------------------------------- what each request does

  function CreateReply(store: Store, r: Request): Reply
    requires r.Create?
  {
    if Validate(r.newNodes, r.newEdges).Some? || !r.permitted || !NodeConfigsOk(r.newNodes) then BadRequest
    else if r.newId in store || !NodesStorable(r.newNodes) || !EdgesStorable(r.newEdges) then NotStored
    else Done
  }

  function UpdateReply(store: Store, r: Request): Reply
    requires r.Update?
  {
    if r.id !in store then NotFound
    else
      var existing := store[r.id];
      if r.seenAt.Some? && r.seenAt.value != existing.updatedAt then Conflict
      else if (r.nodes.Some? || r.edges.Some?)
              && Validate(r.nodes.GetOr(existing.nodes), r.edges.GetOr(existing.edges)).Some? then BadRequest
      else if !r.permitted || (r.nodes.Some? && !NodeConfigsOk(r.nodes.value)) then BadRequest
      else if !NodesStorable(r.nodes.GetOr([])) || !EdgesStorable(r.edges.GetOr([])) then NotStored
      else Done
  }

  ghost function PublishReply(store: Store, id: WorkflowId): Reply {
    if id !in store then NotFound
    else
      var w := store[id];
      if !HasKind(w.nodes, "trigger") || !HasKind(w.nodes, "action") then BadRequest
      else if Validate(w.nodes, w.edges).Some? || !NodeConfigsOk(w.nodes) then BadRequest
      else if Orphans(w.nodes, w.edges) != [] then BadRequest
      else Done
  }

  function SetStatusReply(store: Store, id: WorkflowId, status: WorkflowStatus): Reply {
    if id !in store then NotFound
    else if status == Active && store[id].publishedNodes == [] then BadRequest
    else Done
  }

  ghost function ReplyTo(store: Store, r: Request): Reply {
    match r
    case Create(_, _, _, _) => CreateReply(store, r)
    case Update(_, _, _, _, _) => UpdateReply(store, r)
    case Publish(id) => PublishReply(store, id)
    case SetStatus(id, status) => SetStatusReply(store, id, status)
    case Duplicate(id, newId) => if id !in store then NotFound else if newId in store then NotStored else Done
    case Delete(id) => if id in store then Done else NotFound
  }

  /** The store after a request the service accepted. */
  function Write(store: Store, r: Request, now: nat): Store
    requires r.Create? || r.id in store
  {
    match r
    case Create(newId, nodes, edges, _) => store[newId := Workflow(nodes, edges, [], [], Draft, 0, now)]
    case Update(id, nodes, edges, _, _) =>
      store[id := store[id].(nodes := nodes.GetOr(store[id].nodes), edges := edges.GetOr(store[id].edges),
                             updatedAt := now)]
    case Publish(id) =>
      store[id := store[id].(publishedNodes := store[id].nodes, publishedEdges := store[id].edges,
                             version := store[id].version + 1, updatedAt := now)]
    case SetStatus(id, status) => store[id := store[id].(status := status, updatedAt := now)]
    case Duplicate(id, newId) =>
      store[newId := Workflow(store[id].nodes, store[id].edges, [], [], Draft, 0, now)]
    case Delete(id) => store - {id}
  }

  ghost function Handle(store: Store, r: Request, now: nat): Store {
    if ReplyTo(store, r) == Done then Write(store, r, now) else store
  }

  // ---------------------------------------------------------------- the service

  class AutomationWorkflowService {
    var store: Store

    constructor ()
      ensures store == map[]
    {
      store := map[];
    }

    method CheckNodeConfigs(nodes: seq<Node>) returns (ok: bool)
      ensures ok <==> NodeConfigsOk(nodes)
    {
      for i := 0 to |nodes|
        invariant forall j :: 0 <= j < i ==> NodeConfigOk(nodes[j])
      {
        if !NodeConfigOk(nodes[i]) {
          return false;
        }
      }
      return true;
    }

    method CreateWorkflow(r: Request, now: nat) returns (reply: Reply)
      requires r.Create?
      modifies this
      ensures reply == ReplyTo(old(store), r) && store == Handle(old(store), r, now)
    {
      var refused := ValidateWorkflow(r.newNodes, r.newEdges);
      if refused.Some? || !r.permitted {
        return BadRequest;
      }
      var configs := CheckNodeConfigs(r.newNodes);
      if !configs {
        return BadRequest;
      }
      if r.newId in store || !NodesStorable(r.newNodes) || !EdgesStorable(r.newEdges) {
        return NotStored;
      }
      store := Write(store, r, now);
      reply := Done;
    }

    method UpdateWorkflow(r: Request, now: nat) returns (reply: Reply)
      requires r.Update?
      modifies this
      ensures reply == ReplyTo(old(store), r) && store == Handle(old(store), r, now)
    {
      if r.id !in store {
        return NotFound;
      }
      var existing := store[r.id];
      if r.seenAt.Some? && r.seenAt.value != existing.updatedAt {
        return Conflict;
      }
      if r.nodes.Some? || r.edges.Some? {
        var refused := ValidateWorkflow(r.nodes.GetOr(existing.nodes), r.edges.GetOr(existing.edges));
        if refused.Some? {
          return BadRequest;
        }
      }
      if !r.permitted {
        return BadRequest;
      }
      if r.nodes.Some? {
        var configs := CheckNodeConfigs(r.nodes.value);
        if !configs {
          return BadRequest;
        }
      }
      if !NodesStorable(r.nodes.GetOr([])) || !EdgesStorable(r.edges.GetOr([])) {
        return NotStored;
      }
      store := Write(store, r, now);
      reply := Done;
    }

    method PublishWorkflow(id: WorkflowId, now: nat) returns (reply: Reply)
      modifies this
      ensures reply == ReplyTo(old(store), Publish(id)) && store == Handle(old(store), Publish(id), now)
    {
      if id !in store {
        return NotFound;
      }
      var nodes, edges := store[id].nodes, store[id].edges;
      if !HasKind(nodes, "trigger") || !HasKind(nodes, "action") {
        return BadRequest;
      }
      var refused := ValidateWorkflow(nodes, edges);
      if refused.Some? {
        return BadRequest;
      }
      var configs := CheckNodeConfigs(nodes);
      if !configs {
        return BadRequest;
      }
      var orphans := AssertNoOrphanNodes(nodes, edges);
      if orphans != [] {
        return BadRequest;
      }
      store := Write(store, Publish(id), now);
      reply := Done;
    }

    method UpdateStatus(id: WorkflowId, status: WorkflowStatus, now: nat) returns (reply: Reply)
      modifies this
      ensures reply == ReplyTo(old(store), SetStatus(id, status))
      ensures store == Handle(old(store), SetStatus(id, status), now)
    {
      if id !in store {
        return NotFound;
      }
      if status == Active && |store[id].publishedNodes| == 0 {
        return BadRequest;
      }
      store := store[id := store[id].(status := status, updatedAt := now)];
      reply := Done;
    }
  }

  // ---------------------------------------------------------------- invariants over every run

  ghost predicate DraftOk(w: Workflow) {
    && SingleTrigger(w.nodes) && ConditionsOk(w.nodes)
    && EdgesClosed(w.nodes, w.edges) && HandlesOk(w.nodes, w.edges)
    && EdgesStorable(w.edges)
    && !Cyclic(NodeGraph(w.nodes, w.edges))
  }

  ghost predicate PublishedOk(w: Workflow) {
    || (w.publishedNodes == [] && w.publishedEdges == [])
    || RootedDag(w.publishedNodes, w.publishedEdges)
  }

  ghost predicate WorkflowOk(w: Workflow) {
    DraftOk(w) && PublishedOk(w) && (w.status == Active ==> w.publishedNodes != [])
  }

  ghost predicate StoreOk(store: Store) {
    forall id :: id in store ==> WorkflowOk(store[id])
  }

  lemma StorableHasNoEmptyTargets(edges: seq<Edge>)
    requires EdgesStorable(edges)
    ensures NoEmptyTargets(edges)
  {
  }

  lemma CreateKeeps(store: Store, r: Request, now: nat)
    requires StoreOk(store) && r.Create? && CreateReply(store, r) == Done
    ensures StoreOk(Write(store, r, now))
  {
    StorableHasNoEmptyTargets(r.newEdges);
    AcceptedExactly(r.newNodes, r.newEdges);
  }

  lemma UpdateKeeps(store: Store, r: Request, now: nat)
    requires StoreOk(store) && r.Update? && UpdateReply(store, r) == Done
    ensures StoreOk(Write(store, r, now))
  {
    var w := store[r.id];
    assert WorkflowOk(w);
    var nodes, edges := r.nodes.GetOr(w.nodes), r.edges.GetOr(w.edges);
    StorableHasNoEmptyTargets(edges);
    AcceptedExactly(nodes, edges);
    assert WorkflowOk(Write(store, r, now)[r.id]);
  }

  lemma PublishKeeps(store: Store, id: WorkflowId, now: nat)
    requires StoreOk(store) && PublishReply(store, id) == Done
    ensures StoreOk(Write(store, Publish(id), now))
  {
    var w := store[id];
    assert WorkflowOk(w);
    StorableHasNoEmptyTargets(w.edges);
    ChecksMakeRootedDag(w.nodes, w.edges);
    assert WorkflowOk(Write(store, Publish(id), now)[id]);
  }

  lemma HandleKeeps(store: Store, r: Request, now: nat)
    requires StoreOk(store)
    ensures StoreOk(Handle(store, r, now))
  {
    if ReplyTo(store, r) == Done {
      match r
      case Create(_, _, _, _) => CreateKeeps(store, r, now);
      case Update(_, _, _, _, _) => UpdateKeeps(store, r, now);
      case Publish(id) => PublishKeeps(store, id, now);
      case SetStatus(id, _) => assert WorkflowOk(store[id]);
      case Duplicate(id, _) => assert WorkflowOk(store[id]);
      case Delete(_) =>
    }
  }

  /** Requests, each with the time it was handled. */
  type Log = seq<(Request, nat)>

  /** `stores` are what the store goes through as the requests are handled in turn. */
  ghost predicate Run(stores: seq<Store>, log: Log) {
    && |stores| == |log| + 1 && stores[0] == map[]
    && forall i {:trigger log[i]} :: 0 <= i < |log| ==> stores[i + 1] == Handle(stores[i], log[i].0, log[i].1)
  }

  /** After any run every draft is single-trigger, edge-closed, handle-correct and acyclic,
      every published graph is empty or a rooted DAG, and an active workflow has one. */
  lemma {:induction false} EveryRunKeepsWorkflowsSound(stores: seq<Store>, log: Log, n: nat)
    requires Run(stores, log) && n < |stores|
    ensures StoreOk(stores[n])
  {
    if n > 0 {
      EveryRunKeepsWorkflowsSound(stores, log, n - 1);
      HandleKeeps(stores[n - 1], log[n - 1].0, log[n - 1].1);
    }
  }

  /** An active workflow always terminates: every walk of what it executes is shorter than
      its node count, and only its trigger starts one. */
  lemma ActiveWorkflowsHalt(stores: seq<Store>, log: Log, n: nat, id: WorkflowId, walk: seq<NodeId>)
    requires Run(stores, log) && n < |stores| && id in stores[n] && stores[n][id].status == Active
    requires Walk(NodeGraph(stores[n][id].publishedNodes, stores[n][id].publishedEdges), walk)
    requires walk[0] in Ids(stores[n][id].publishedNodes)
    ensures |walk| - 1 < |Ids(stores[n][id].publishedNodes)|
  {
    EveryRunKeepsWorkflowsSound(stores, log, n);
    var w := stores[n][id];
    assert WorkflowOk(w);
    WalksAreShort(w.publishedNodes, w.publishedEdges, walk);
  }

  /** Only publishing (and deleting) a workflow touches what it executes. */
  lemma OnlyPublishChangesPublished(store: Store, r: Request, now: nat, id: WorkflowId)
    requires id in store && id in Handle(store, r, now) && r != Publish(id)
    ensures var was, after := store[id], Handle(store, r, now)[id];
            after.publishedNodes == was.publishedNodes && after.publishedEdges == was.publishedEdges
            && after.version == was.version
  {
  }
}
