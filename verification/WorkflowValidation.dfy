/** The workflow validators as the service runs them, and what a publishable graph is. */
module WorkflowValidation {
  import opened Options
  import opened WorkflowGraph

  /** `kind` is the stored `type`. `rulesOk` and `configOk` stand for the checks of a node's
      own configuration, which read code and data outside this model. */
  datatype Node = Node(id: NodeId, kind: string, rulesOk: bool, configOk: bool)

  datatype Edge = Edge(id: string, source: NodeId, target: NodeId, sourceHandle: Option<string>)

  datatype Refusal =
    | NoTrigger
    | ManyTriggers
    | BadCondition(node: NodeId)
    | UnknownSource(edge: string)
    | UnknownTarget(edge: string)
    | BadHandle(edge: string)
    | Cycle(node: NodeId)

  function Ids(nodes: seq<Node>): set<NodeId> {
    set n | n in nodes :: n.id
  }

  function IdList(nodes: seq<Node>): (ids: seq<NodeId>)
    ensures |ids| == |nodes| && forall i :: 0 <= i < |ids| ==> ids[i] == nodes[i].id
  {
    seq(|nodes|, i requires 0 <= i < |nodes| => nodes[i].id)
  }

  function Targets(edges: seq<Edge>, n: NodeId): seq<NodeId> {
    if edges == [] then []
    else Targets(edges[..|edges| - 1], n)
         + if edges[|edges| - 1].source == n then [edges[|edges| - 1].target] else []
  }

  /** The adjacency `assertNoCycle` builds: only known nodes have an entry. */
  function NodeGraph(nodes: seq<Node>, edges: seq<Edge>): Graph {
    map n | n in Ids(nodes) :: Targets(edges, n)
  }

  /** The adjacency `assertNoOrphanNodes` builds: every source has an entry. */
  function EdgeGraph(edges: seq<Edge>): Graph {
    map n | n in Sources(edges) :: Targets(edges, n)
  }

  function Sources(edges: seq<Edge>): set<NodeId> {
    set e | e in edges :: e.source
  }

  lemma {:induction false} TargetsAreEdges(edges: seq<Edge>, a: NodeId, b: NodeId)
    ensures b in Targets(edges, a) <==> exists e :: e in edges && e.source == a && e.target == b
  {
    if edges != [] {
      var n := |edges| - 1;
      TargetsAreEdges(edges[..n], a, b);
      assert edges == edges[..n] + [edges[n]];
    }
  }

  // ---------------------------------------------------------------- cycle detection

  lemma VisitShrinks(g: Graph, before: Marks, marks: Marks, n: NodeId, next: NodeId)
    requires n in Universe(g) && n !in before && before.Keys + {n} <= marks.Keys
    requires next in Succ(g, n)
    ensures next in Universe(g) && Unvisited(g, marks) < Unvisited(g, before)
  {
    assert n in Unvisited(g, before) && n !in Unvisited(g, marks);
  }

  lemma NodeGraphGrows(nodes: seq<Node>, edges: seq<Edge>, i: nat)
    requires i < |edges|
    ensures var was, e := NodeGraph(nodes, edges[..i]), edges[i];
            NodeGraph(nodes, edges[..i + 1])
            == if e.source in was then was[e.source := was[e.source] + [e.target]] else was
  {
    var was, now, e := NodeGraph(nodes, edges[..i]), NodeGraph(nodes, edges[..i + 1]), edges[i];
    forall k | k in now ensures now[k] == if e.source == k then was[k] + [e.target] else was[k] {
      TargetsGrow(edges, i, k);
    }
  }

  /** `assertNoCycle` and its recursive closure over two maps. */
  class CycleDetector {
    var adjacency: Graph
    var state: Marks

    constructor (nodes: seq<Node>, edges: seq<Edge>)
      ensures adjacency == NodeGraph(nodes, edges) && state == map[]
    {
      var adj: Graph := map[];
      for i := 0 to |nodes|
        invariant adj == NodeGraph(nodes[..i], [])
      {
        assert nodes[..i + 1] == nodes[..i] + [nodes[i]];
        adj := adj[nodes[i].id := []];
      }
      assert nodes[..|nodes|] == nodes;
      for i := 0 to |edges|
        invariant adj == NodeGraph(nodes, edges[..i])
      {
        NodeGraphGrows(nodes, edges, i);
        var e := edges[i];
        if e.source in adj {
          adj := adj[e.source := adj[e.source] + [e.target]];
        }
      }
      assert edges[..|edges|] == edges;
      adjacency := adj;
      state := map[];
    }

    method VisitFromNode(n: NodeId) returns (found: Option<NodeId>)
      requires n in Universe(adjacency) && n !in state && state.Keys <= Universe(adjacency)
      modifies this
      ensures adjacency == old(adjacency)
      ensures Visit(state, found) == VisitNode(adjacency, old(state), n)
      decreases Unvisited(adjacency, state)
    {
      EnteringShrinks(adjacency, state, n);
      ghost var before := state;
      state := state[n := OnStack];
      var edges := Succ(adjacency, n);
      for i := 0 to |edges|
        invariant adjacency == old(adjacency) && edges == Succ(adjacency, n)
        invariant before.Keys + {n} <= state.Keys <= Universe(adjacency)
        invariant VisitFrom(adjacency, state, n, i) == VisitNode(adjacency, before, n)
      {
        var next := edges[i];
        if next in state {
          if state[next] == OnStack {
            return Some(next);
          }
        } else {
          VisitShrinks(adjacency, before, state, n, next);
          found := VisitFromNode(next);
          if Truthy(found) {
            return;
          }
        }
      }
      state := state[n := Explored];
      found := None;
    }

    method AssertNoCycle(order: seq<NodeId>) returns (thrown: Option<NodeId>)
      requires state == map[]
      requires forall n :: n in order ==> n in adjacency
      modifies this
      ensures adjacency == old(adjacency)
      ensures thrown == Search(adjacency, order, map[])
    {
      for i := 0 to |order|
        invariant adjacency == old(adjacency) && state.Keys <= Universe(adjacency)
        invariant Search(adjacency, order[i..], state) == Search(adjacency, order, map[])
      {
        assert order[i..][1..] == order[i + 1..];
        if order[i] !in state {
          var cycleNode := VisitFromNode(order[i]);
          if Truthy(cycleNode) {
            return cycleNode;
          }
        }
      }
      thrown := None;
    }
  }

  // ---------------------------------------------------------------- reachability

  function TriggerOf(nodes: seq<Node>): (t: Option<NodeId>)
    ensures t.Some? ==> t.value in Ids(nodes)
    ensures t.Some? <==> exists n :: n in nodes && n.kind == "trigger"
  {
    if nodes == [] then None
    else if nodes[0].kind == "trigger" then Some(nodes[0].id)
    else TriggerOf(nodes[1..])
  }

  /** The nodes a walk from `t` does not reach, in list order. */
  ghost function Unreached(nodes: seq<Node>, g: Graph, t: NodeId): seq<NodeId> {
    if nodes == [] then []
    else Unreached(nodes[..|nodes| - 1], g, t)
         + if Reach(g, t, nodes[|nodes| - 1].id) then [] else [nodes[|nodes| - 1].id]
  }

  ghost function Orphans(nodes: seq<Node>, edges: seq<Edge>): seq<NodeId> {
    match TriggerOf(nodes)
    case None => []
    case Some(t) => Unreached(nodes, EdgeGraph(edges), t)
  }

  lemma EntryGrows(edges: seq<Edge>, i: nat, k: NodeId)
    requires i < |edges| && k in Sources(edges[..i + 1])
    ensures var was, e := EdgeGraph(edges[..i]), edges[i];
            EdgeGraph(edges[..i + 1])[k] == if e.source == k then Succ(was, k) + [e.target] else Succ(was, k)
  {
    EdgeGraphEntry(edges[..i], k);
    TargetsGrow(edges, i, k);
  }

  lemma EdgeGraphGrows(edges: seq<Edge>, i: nat)
    requires i < |edges|
    ensures var was, e := EdgeGraph(edges[..i]), edges[i];
            EdgeGraph(edges[..i + 1]) == was[e.source := Succ(was, e.source) + [e.target]]
  {
    var was, now, e := EdgeGraph(edges[..i]), EdgeGraph(edges[..i + 1]), edges[i];
    SourcesGrow(edges, i);
    var grown := was[e.source := Succ(was, e.source) + [e.target]];
    assert now.Keys == grown.Keys;
    forall k | k in now ensures now[k] == grown[k] {
      EntryGrows(edges, i, k);
    }
  }

  lemma SourcesGrow(edges: seq<Edge>, i: nat)
    requires i < |edges|
    ensures Sources(edges[..i + 1]) == Sources(edges[..i]) + {edges[i].source}
  {
    assert edges[..i + 1] == edges[..i] + [edges[i]];
  }

  lemma EdgeGraphEntry(edges: seq<Edge>, k: NodeId)
    ensures Succ(EdgeGraph(edges), k) == Targets(edges, k)
  {
    NoEdgesNoTargets(edges, k);
  }

  lemma TargetsGrow(edges: seq<Edge>, i: nat, k: NodeId)
    requires i < |edges|
    ensures Targets(edges[..i + 1], k)
            == if edges[i].source == k then Targets(edges[..i], k) + [edges[i].target] else Targets(edges[..i], k)
  {
    assert edges[..i + 1][..i] == edges[..i];
    assert Targets(edges[..i], k) + [] == Targets(edges[..i], k);
  }

  lemma {:induction false} NoEdgesNoTargets(edges: seq<Edge>, k: NodeId)
    ensures (forall e :: e in edges ==> e.source != k) ==> Targets(edges, k) == []
  {
    if edges != [] {
      NoEdgesNoTargets(edges[..|edges| - 1], k);
    }
  }

  /** A set closed under edges holds everything reachable from its members. */
  lemma {:induction false} ClosedHoldsWalk(g: Graph, s: set<NodeId>, w: seq<NodeId>, i: nat)
    requires forall a, b :: a in s && Next(g, a, b) ==> b in s
    requires Walk(g, w) && w[0] in s && i < |w|
    ensures w[i] in s
  {
    if i > 0 {
      ClosedHoldsWalk(g, s, w, i - 1);
      assert Next(g, w[i - 1], w[i]);
    }
  }

  lemma ReachStep(g: Graph, t: NodeId, a: NodeId, b: NodeId)
    requires Reach(g, t, a) && Next(g, a, b)
    ensures Reach(g, t, b)
  {
    var w :| Connects(g, w, t, a);
    WalkSnoc(g, w, b);
    assert Connects(g, w + [b], t, b);
  }

  lemma ReachSelf(g: Graph, t: NodeId)
    ensures Reach(g, t, t)
  {
    assert Connects(g, [t], t, t);
  }

  /** Every node seen is reachable, and every edge of a node no longer queued was taken. */
  ghost predicate Frontier(g: Graph, t: NodeId, reachable: set<NodeId>, queue: seq<NodeId>) {
    && t in reachable
    && (forall n :: n in reachable ==> Reach(g, t, n))
    && (forall n :: n in queue ==> n in reachable)
    && (forall a, b :: a in reachable && a !in queue && Next(g, a, b) ==> b in reachable)
  }

  method BuildEdgeGraph(edges: seq<Edge>) returns (adjacency: Graph)
    ensures adjacency == EdgeGraph(edges)
  {
    adjacency := map[];
    for i := 0 to |edges|
      invariant adjacency == EdgeGraph(edges[..i])
    {
      EdgeGraphGrows(edges, i);
      adjacency := adjacency[edges[i].source := Succ(adjacency, edges[i].source) + [edges[i].target]];
    }
    assert edges[..|edges|] == edges;
  }

  /** One node taken off the queue: `next` are its successors, of which the first `i` were looked at. */
  ghost predicate Taking(g: Graph, t: NodeId, reachable: set<NodeId>, queue: seq<NodeId>, current: NodeId, i: nat)
    requires i <= |Succ(g, current)|
  {
    && t in reachable && current in reachable
    && (forall n :: n in reachable ==> Reach(g, t, n))
    && (forall n :: n in queue ==> n in reachable)
    && (forall a, b :: a in reachable && a !in queue && a != current && Next(g, a, b) ==> b in reachable)
    && (forall j :: 0 <= j < i ==> Succ(g, current)[j] in reachable)
  }

  lemma TakeOne(g: Graph, t: NodeId, reachable: set<NodeId>, queue: seq<NodeId>, current: NodeId, i: nat)
    requires i < |Succ(g, current)| && Taking(g, t, reachable, queue, current, i)
    requires Succ(g, current)[i] !in reachable
    ensures var b := Succ(g, current)[i];
            b in Universe(g) && Taking(g, t, reachable + {b}, queue + [b], current, i + 1)
  {
    var b := Succ(g, current)[i];
    assert Next(g, current, b);
    ReachStep(g, t, current, b);
  }

  /** The inner loop: every successor of `current` is seen, and the new ones queued. */
  method Expand(g: Graph, t: NodeId, seen: set<NodeId>, rest: seq<NodeId>, current: NodeId, ghost all: set<NodeId>)
    returns (reachable: set<NodeId>, queue: seq<NodeId>)
    requires Taking(g, t, seen, rest, current, 0) && seen <= all && Universe(g) <= all
    ensures Frontier(g, t, reachable, queue) && seen <= reachable <= all
    ensures reachable == seen ==> queue == rest
  {
    reachable, queue := seen, rest;
    var next := Succ(g, current);
    for i := 0 to |next|
      invariant Taking(g, t, reachable, queue, current, i) && seen <= reachable <= all
      invariant reachable == seen ==> queue == rest
    {
      if next[i] !in reachable {
        TakeOne(g, t, reachable, queue, current, i);
        reachable := reachable + {next[i]};
        queue := queue + [next[i]];
      }
    }
  }

  /** The set breadth-first search collects is exactly the set reachable from `t`. */
  method ReachableFrom(g: Graph, t: NodeId) returns (reachable: set<NodeId>)
    ensures forall n :: n in reachable <==> Reach(g, t, n)
  {
    reachable := {t};
    var queue := [t];
    ReachSelf(g, t);
    ghost var all := Universe(g) + {t};
    while queue != []
      invariant Frontier(g, t, reachable, queue) && reachable <= all
      decreases all - reachable, |queue|
    {
      reachable, queue := Expand(g, t, reachable, queue[1..], queue[0], all);
    }
    forall n | Reach(g, t, n) ensures n in reachable {
      var w :| Connects(g, w, t, n);
      ClosedHoldsWalk(g, reachable, w, |w| - 1);
    }
  }

  method AssertNoOrphanNodes(nodes: seq<Node>, edges: seq<Edge>) returns (orphans: seq<NodeId>)
    ensures orphans == Orphans(nodes, edges)
  {
    orphans := [];
    var trigger := TriggerOf(nodes);
    if trigger.None? {
      return;
    }
    var g := BuildEdgeGraph(edges);
    var reachable := ReachableFrom(g, trigger.value);
    for i := 0 to |nodes|
      invariant orphans == Unreached(nodes[..i], g, trigger.value)
    {
      assert nodes[..i + 1][..i] == nodes[..i];
      if nodes[i].id !in reachable {
        orphans := orphans + [nodes[i].id];
      }
    }
    assert nodes[..|nodes|] == nodes;
  }

  lemma {:induction false} NoUnreached(nodes: seq<Node>, g: Graph, t: NodeId)
    ensures Unreached(nodes, g, t) == [] <==> forall n :: n in nodes ==> Reach(g, t, n.id)
  {
    if nodes != [] {
      var k := |nodes| - 1;
      NoUnreached(nodes[..k], g, t);
      assert nodes == nodes[..k] + [nodes[k]];
    }
  }

  // ---------------------------------------------------------------- structural validation

  function CountTriggers(nodes: seq<Node>): nat {
    if nodes == [] then 0
    else CountTriggers(nodes[..|nodes| - 1]) + if nodes[|nodes| - 1].kind == "trigger" then 1 else 0
  }

  predicate ConditionOk(n: Node) {
    n.kind == "condition" ==> n.rulesOk
  }

  function FirstBadCondition(nodes: seq<Node>): Option<Refusal> {
    if nodes == [] then None
    else
      var before := FirstBadCondition(nodes[..|nodes| - 1]);
      var n := nodes[|nodes| - 1];
      if before.Some? then before else if ConditionOk(n) then None else Some(BadCondition(n.id))
  }

  function BadEndpoint(ids: set<NodeId>, e: Edge): Option<Refusal> {
    if e.source !in ids then Some(UnknownSource(e.id))
    else if e.target !in ids then Some(UnknownTarget(e.id))
    else None
  }

  function FirstBadEndpoint(ids: set<NodeId>, edges: seq<Edge>): Option<Refusal> {
    if edges == [] then None
    else
      var before := FirstBadEndpoint(ids, edges[..|edges| - 1]);
      if before.Some? then before else BadEndpoint(ids, edges[|edges| - 1])
  }

  /** The last node with an id gives its type, as in a `Map` built from the list. */
  function KindOf(nodes: seq<Node>, id: NodeId): Option<string> {
    if nodes == [] then None
    else if nodes[|nodes| - 1].id == id then Some(nodes[|nodes| - 1].kind)
    else KindOf(nodes[..|nodes| - 1], id)
  }

  function Handles(kind: Option<string>): set<string> {
    if kind == Some("condition") then {"matched", "not_matched"}
    else if kind == Some("action") then {"success", "failure"}
    else {}
  }

  predicate HandleOk(nodes: seq<Node>, e: Edge) {
    !Truthy(e.sourceHandle) || e.sourceHandle.value in Handles(KindOf(nodes, e.source))
  }

  function FirstBadHandle(nodes: seq<Node>, edges: seq<Edge>): Option<Refusal> {
    if edges == [] then None
    else
      var before := FirstBadHandle(nodes, edges[..|edges| - 1]);
      var e := edges[|edges| - 1];
      if before.Some? then before else if HandleOk(nodes, e) then None else Some(BadHandle(e.id))
  }

  function FoundCycle(nodes: seq<Node>, edges: seq<Edge>): Option<NodeId> {
    Search(NodeGraph(nodes, edges), IdList(nodes), map[])
  }

  /** Why `validateWorkflow` refuses a graph, if it does. */
  function Validate(nodes: seq<Node>, edges: seq<Edge>): Option<Refusal> {
    if CountTriggers(nodes) == 0 then Some(NoTrigger)
    else if CountTriggers(nodes) > 1 then Some(ManyTriggers)
    else if FirstBadCondition(nodes).Some? then FirstBadCondition(nodes)
    else if FirstBadEndpoint(Ids(nodes), edges).Some? then FirstBadEndpoint(Ids(nodes), edges)
    else if FirstBadHandle(nodes, edges).Some? then FirstBadHandle(nodes, edges)
    else if FoundCycle(nodes, edges).Some? then Some(Cycle(FoundCycle(nodes, edges).value))
    else None
  }

  method ValidateWorkflow(nodes: seq<Node>, edges: seq<Edge>) returns (refused: Option<Refusal>)
    ensures refused == Validate(nodes, edges)
  {
    var triggers := 0;
    for i := 0 to |nodes|
      invariant triggers == CountTriggers(nodes[..i])
    {
      assert nodes[..i + 1][..i] == nodes[..i];
      if nodes[i].kind == "trigger" {
        triggers := triggers + 1;
      }
    }
    assert nodes[..|nodes|] == nodes && edges[..|edges|] == edges;
    if triggers == 0 {
      return Some(NoTrigger);
    }
    if triggers > 1 {
      return Some(ManyTriggers);
    }
    refused := CheckParts(nodes, edges);
    if refused.Some? {
      return;
    }
    var detector := new CycleDetector(nodes, edges);
    var cycleNode := detector.AssertNoCycle(IdList(nodes));
    if cycleNode.Some? {
      return Some(Cycle(cycleNode.value));
    }
  }

  /** The three loops between the trigger count and the cycle search. */
  method CheckParts(nodes: seq<Node>, edges: seq<Edge>) returns (refused: Option<Refusal>)
    ensures refused == if FirstBadCondition(nodes).Some? then FirstBadCondition(nodes)
                       else if FirstBadEndpoint(Ids(nodes), edges).Some? then FirstBadEndpoint(Ids(nodes), edges)
                       else FirstBadHandle(nodes, edges)
  {
    refused := None;
    for i := 0 to |nodes|
      invariant refused == FirstBadCondition(nodes[..i])
    {
      assert nodes[..i + 1][..i] == nodes[..i];
      if refused.None? && !ConditionOk(nodes[i]) {
        refused := Some(BadCondition(nodes[i].id));
      }
    }
    assert nodes[..|nodes|] == nodes && edges[..|edges|] == edges;
    if refused.Some? {
      return;
    }
    for i := 0 to |edges|
      invariant refused == FirstBadEndpoint(Ids(nodes), edges[..i])
    {
      assert edges[..i + 1][..i] == edges[..i];
      if refused.None? {
        refused := BadEndpoint(Ids(nodes), edges[i]);
      }
    }
    if refused.Some? {
      return;
    }
    for i := 0 to |edges|
      invariant refused == FirstBadHandle(nodes, edges[..i])
    {
      assert edges[..i + 1][..i] == edges[..i];
      if refused.None? && !HandleOk(nodes, edges[i]) {
        refused := Some(BadHandle(edges[i].id));
      }
    }
  }

  predicate SingleTrigger(nodes: seq<Node>) {
    exists i :: 0 <= i < |nodes| && OnlyTrigger(nodes, i)
  }

  predicate OnlyTrigger(nodes: seq<Node>, i: nat)
    requires i < |nodes|
  {
    forall j :: 0 <= j < |nodes| ==> (nodes[j].kind == "trigger" <==> j == i)
  }

  predicate EdgesClosed(nodes: seq<Node>, edges: seq<Edge>) {
    forall e :: e in edges ==> e.source in Ids(nodes) && e.target in Ids(nodes)
  }

  predicate HandlesOk(nodes: seq<Node>, edges: seq<Edge>) {
    forall e :: e in edges ==> HandleOk(nodes, e)
  }

  predicate ConditionsOk(nodes: seq<Node>) {
    forall n :: n in nodes ==> ConditionOk(n)
  }

  lemma {:induction false} NoTriggerCounted(nodes: seq<Node>)
    ensures CountTriggers(nodes) == 0 <==> forall j :: 0 <= j < |nodes| ==> nodes[j].kind != "trigger"
  {
    if nodes != [] {
      var k := |nodes| - 1;
      NoTriggerCounted(nodes[..k]);
      assert forall j :: 0 <= j < k ==> nodes[..k][j] == nodes[j];
    }
  }

  lemma OnlyTriggerPrefix(nodes: seq<Node>, i: nat)
    requires i < |nodes| - 1
    ensures OnlyTrigger(nodes, i) <==>
              OnlyTrigger(nodes[..|nodes| - 1], i) && nodes[|nodes| - 1].kind != "trigger"
  {
    var k := |nodes| - 1;
    assert forall j :: 0 <= j < k ==> nodes[..k][j] == nodes[j];
  }

  lemma {:induction false} TriggersCounted(nodes: seq<Node>)
    ensures CountTriggers(nodes) == 1 <==> SingleTrigger(nodes)
  {
    if nodes != [] {
      var k := |nodes| - 1;
      TriggersCounted(nodes[..k]);
      NoTriggerCounted(nodes[..k]);
      if i :| 0 <= i < k && OnlyTrigger(nodes[..k], i) {
        OnlyTriggerPrefix(nodes, i);
      }
      if i :| 0 <= i < k && OnlyTrigger(nodes, i) {
        OnlyTriggerPrefix(nodes, i);
      }
      assert OnlyTrigger(nodes, k) <==> nodes[k].kind == "trigger" && CountTriggers(nodes[..k]) == 0;
    }
  }

  lemma {:induction false} BadConditionNone(nodes: seq<Node>)
    ensures FirstBadCondition(nodes).None? <==> ConditionsOk(nodes)
  {
    if nodes != [] {
      var k := |nodes| - 1;
      BadConditionNone(nodes[..k]);
      assert nodes == nodes[..k] + [nodes[k]];
    }
  }

  lemma {:induction false} BadEdgesNone(nodes: seq<Node>, edges: seq<Edge>)
    ensures FirstBadEndpoint(Ids(nodes), edges).None? <==> EdgesClosed(nodes, edges)
    ensures FirstBadHandle(nodes, edges).None? <==> HandlesOk(nodes, edges)
  {
    if edges != [] {
      var k := |edges| - 1;
      BadEdgesNone(nodes, edges[..k]);
      assert edges == edges[..k] + [edges[k]];
    }
  }

  ghost predicate NoEmptyTargets(edges: seq<Edge>) {
    forall e :: e in edges ==> e.target != ""
  }

  /** What acceptance means: one trigger, checked conditions, edges between known nodes
      through handles those nodes have, and, no edge leading into an empty id, no cycle. */
  lemma AcceptedExactly(nodes: seq<Node>, edges: seq<Edge>)
    requires NoEmptyTargets(edges)
    ensures Validate(nodes, edges).None? <==>
              && SingleTrigger(nodes) && ConditionsOk(nodes)
              && EdgesClosed(nodes, edges) && HandlesOk(nodes, edges)
              && !Cyclic(NodeGraph(nodes, edges))
  {
    TriggersCounted(nodes);
    NoTriggerCounted(nodes);
    BadConditionNone(nodes);
    BadEdgesNone(nodes, edges);
    var g := NodeGraph(nodes, edges);
    forall a ensures !Next(g, a, "") {
      TargetsAreEdges(edges, a, "");
    }
    ThrowsExactlyOnCycles(g, IdList(nodes));
  }

  // ---------------------------------------------------------------- publishable graphs

  /** One trigger, from which every node can be reached, and no cycle. */
  ghost predicate RootedDag(nodes: seq<Node>, edges: seq<Edge>) {
    && SingleTrigger(nodes) && EdgesClosed(nodes, edges)
    && TriggerOf(nodes).Some?
    && !Cyclic(NodeGraph(nodes, edges))
    && forall id :: id in Ids(nodes) ==> Reach(NodeGraph(nodes, edges), TriggerOf(nodes).value, id)
  }

  lemma GraphsAgree(nodes: seq<Node>, edges: seq<Edge>, a: NodeId)
    requires EdgesClosed(nodes, edges)
    ensures Succ(NodeGraph(nodes, edges), a) == Succ(EdgeGraph(edges), a)
  {
    EdgeGraphEntry(edges, a);
    NoEdgesNoTargets(edges, a);
  }

  lemma SameReach(g: Graph, h: Graph, a: NodeId, b: NodeId)
    requires (forall n :: Succ(g, n) == Succ(h, n)) && Reach(g, a, b)
    ensures Reach(h, a, b)
  {
    var w :| Connects(g, w, a, b);
    forall i | 0 <= i < |w| - 1 ensures Next(h, w[i], w[i + 1]) {
      assert Next(g, w[i], w[i + 1]);
    }
    assert Connects(h, w, a, b);
  }

  /** The checks `publish` makes together give a rooted, acyclic graph. */
  lemma ChecksMakeRootedDag(nodes: seq<Node>, edges: seq<Edge>)
    requires NoEmptyTargets(edges) && Validate(nodes, edges).None? && Orphans(nodes, edges) == []
    ensures RootedDag(nodes, edges)
  {
    AcceptedExactly(nodes, edges);
    var g, h := NodeGraph(nodes, edges), EdgeGraph(edges);
    forall a ensures Succ(h, a) == Succ(g, a) {
      GraphsAgree(nodes, edges, a);
    }
    var i :| 0 <= i < |nodes| && OnlyTrigger(nodes, i);
    assert nodes[i] in nodes && nodes[i].kind == "trigger";
    var t := TriggerOf(nodes).value;
    NoUnreached(nodes, h, t);
    forall id | id in Ids(nodes) ensures Reach(g, t, id) {
      SameReach(h, g, t, id);
    }
  }

  /** In a rooted DAG the trigger is the one node no edge leads into. */
  lemma TriggerIsTheOnlyRoot(nodes: seq<Node>, edges: seq<Edge>, id: NodeId)
    requires RootedDag(nodes, edges) && id in Ids(nodes)
    ensures (exists e :: e in edges && e.target == id) <==> id != TriggerOf(nodes).value
  {
    var g, t := NodeGraph(nodes, edges), TriggerOf(nodes).value;
    if e :| e in edges && e.target == id && id == t {
      TargetsAreEdges(edges, e.source, t);
      var w :| Connects(g, w, t, e.source);
      assert Next(g, e.source, t);
      ClosingMakesCycle(g, w, t);
    }
    if id != t {
      var w :| Connects(g, w, t, id);
      var k := |w| - 2;
      assert Next(g, w[k], w[k + 1]);
      TargetsAreEdges(edges, w[k], id);
    }
  }

  lemma {:induction false} DistinctFit(w: seq<NodeId>, s: set<NodeId>)
    requires NoRepeats(w) && forall i :: 0 <= i < |w| ==> w[i] in s
    ensures |w| <= |s|
  {
    if w != [] {
      var k := |w| - 1;
      DistinctFit(w[..k], s - {w[k]});
    }
  }

  lemma RepeatMakesCycle(g: Graph, w: seq<NodeId>, i: nat, j: nat)
    requires Walk(g, w) && i < j < |w| && w[i] == w[j]
    ensures Cyclic(g)
  {
    var around := w[i..j + 1];
    assert |around| > 1 && Connects(g, around, w[i], w[i]);
    assert OnCycle(g, w[i]);
  }

  /** Traversal halts: no walk from a node of a rooted DAG has as many edges as there are nodes. */
  lemma WalksAreShort(nodes: seq<Node>, edges: seq<Edge>, w: seq<NodeId>)
    requires RootedDag(nodes, edges) && Walk(NodeGraph(nodes, edges), w) && w[0] in Ids(nodes)
    ensures |w| - 1 < |Ids(nodes)|
  {
    var g := NodeGraph(nodes, edges);
    forall a, b | a in Ids(nodes) && Next(g, a, b) ensures b in Ids(nodes) {
      TargetsAreEdges(edges, a, b);
    }
    forall i | 0 <= i < |w| ensures w[i] in Ids(nodes) {
      ClosedHoldsWalk(g, Ids(nodes), w, i);
    }
    forall i, j | 0 <= i < j < |w| ensures w[i] != w[j] {
      if w[i] == w[j] {
        RepeatMakesCycle(g, w, i, j);
      }
    }
    DistinctFit(w, Ids(nodes));
  }
}
