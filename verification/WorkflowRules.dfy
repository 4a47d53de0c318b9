/** What the validators refuse and accept, spelled out on nodes and edges alone. */
module WorkflowRules {
  import opened Options
  import opened WorkflowGraph
  import opened WorkflowValidation

  // ---------------------------------------------------------------- handles

  /** Node `i` is the last one with the id the edge starts from. */
  ghost predicate StartsAt(nodes: seq<Node>, e: Edge, i: nat) {
    i < |nodes| && nodes[i].id == e.source && forall j :: i < j < |nodes| ==> nodes[j].id != e.source
  }

  /** An edge leaves a condition through `matched` or `not_matched`, an action through
      `success` or `failure`, and any node through no handle. */
  ghost predicate Fits(nodes: seq<Node>, e: Edge) {
    || e.sourceHandle.None? || e.sourceHandle.value == ""
    || exists i :: 0 <= i < |nodes| && StartsAt(nodes, e, i)
                   && ((nodes[i].kind == "condition" && e.sourceHandle.value in {"matched", "not_matched"})
                       || (nodes[i].kind == "action" && e.sourceHandle.value in {"success", "failure"}))
  }

  lemma {:induction false} KindIsTheLast(nodes: seq<Node>, e: Edge, i: nat)
    requires StartsAt(nodes, e, i)
    ensures KindOf(nodes, e.source) == Some(nodes[i].kind)
  {
    var n := |nodes| - 1;
    if i < n {
      assert nodes[n].id != e.source;
      assert forall j :: 0 <= j < n ==> nodes[..n][j] == nodes[j];
      KindIsTheLast(nodes[..n], e, i);
    }
  }

  lemma {:induction false} SomeNodeIsLast(nodes: seq<Node>, e: Edge) returns (i: nat)
    requires KindOf(nodes, e.source).Some?
    ensures StartsAt(nodes, e, i)
  {
    var n := |nodes| - 1;
    if nodes[n].id == e.source {
      i := n;
    } else {
      i := SomeNodeIsLast(nodes[..n], e);
    }
  }

  lemma HandleExactly(nodes: seq<Node>, e: Edge)
    ensures HandleOk(nodes, e) <==> Fits(nodes, e)
  {
    if KindOf(nodes, e.source).Some? {
      var i := SomeNodeIsLast(nodes, e);
      KindIsTheLast(nodes, e, i);
      forall j | 0 <= j < |nodes| && StartsAt(nodes, e, j) ensures j == i {
      }
    } else if i :| 0 <= i < |nodes| && StartsAt(nodes, e, i) {
      KindIsTheLast(nodes, e, i);
    }
  }

  // ---------------------------------------------------------------- walks of edges

  /** The edges of `path` lead from `a` to `b`, each starting where the one before it ends. */
  ghost predicate Leads(edges: seq<Edge>, path: seq<Edge>, a: NodeId, b: NodeId) {
    && path != [] && path[0].source == a && path[|path| - 1].target == b
    && (forall e :: e in path ==> e in edges)
    && forall i :: 0 <= i < |path| - 1 ==> path[i].target == path[i + 1].source
  }

  ghost predicate GoesRound(edges: seq<Edge>) {
    exists n, path :: Leads(edges, path, n, n)
  }

  ghost predicate Connected(edges: seq<Edge>, a: NodeId, b: NodeId) {
    a == b || exists path :: Leads(edges, path, a, b)
  }

  ghost predicate Joins(edges: seq<Edge>, a: NodeId, b: NodeId) {
    exists e :: e in edges && e.source == a && e.target == b
  }

  /** The graph has the edges of the list and no others. */
  ghost predicate Draws(g: Graph, edges: seq<Edge>) {
    forall a, b :: Next(g, a, b) <==> Joins(edges, a, b)
  }

  lemma BothGraphsDraw(nodes: seq<Node>, edges: seq<Edge>)
    ensures EdgesClosed(nodes, edges) ==> Draws(NodeGraph(nodes, edges), edges)
    ensures Draws(EdgeGraph(edges), edges)
  {
    forall a, b ensures b in Targets(edges, a) <==> Joins(edges, a, b) {
      TargetsAreEdges(edges, a, b);
    }
  }

  /** The nodes a path passes. */
  function Passed(path: seq<Edge>): (w: seq<NodeId>)
    requires path != []
    ensures |w| == |path| + 1
  {
    [path[0].source] + seq(|path|, i requires 0 <= i < |path| => path[i].target)
  }

  lemma PathIsWalk(g: Graph, edges: seq<Edge>, path: seq<Edge>, a: NodeId, b: NodeId)
    requires Draws(g, edges) && Leads(edges, path, a, b)
    ensures Connects(g, Passed(path), a, b)
  {
    var w := Passed(path);
    forall i | 0 <= i < |w| - 1 ensures Next(g, w[i], w[i + 1]) {
      assert path[i] in edges && w[i] == path[i].source && w[i + 1] == path[i].target;
      assert Joins(edges, w[i], w[i + 1]);
    }
  }

  lemma {:induction false} WalkIsPath(g: Graph, edges: seq<Edge>, w: seq<NodeId>, a: NodeId, b: NodeId)
    returns (path: seq<Edge>)
    requires Draws(g, edges) && Connects(g, w, a, b) && |w| > 1
    ensures Leads(edges, path, a, b)
  {
    var n := |w| - 1;
    assert Next(g, w[n - 1], w[n]) && Joins(edges, w[n - 1], w[n]);
    var last :| last in edges && last.source == w[n - 1] && last.target == w[n];
    if n == 1 {
      path := [last];
    } else {
      var was := w[..n];
      forall i | 0 <= i < n - 1 ensures Next(g, was[i], was[i + 1]) {
        assert Next(g, w[i], w[i + 1]);
      }
      path := WalkIsPath(g, edges, was, a, w[n - 1]);
      path := path + [last];
    }
  }

  lemma CyclicExactly(g: Graph, edges: seq<Edge>)
    requires Draws(g, edges)
    ensures Cyclic(g) <==> GoesRound(edges)
  {
    if Cyclic(g) {
      var n :| OnCycle(g, n);
      var w :| Connects(g, w, n, n) && |w| > 1;
      var path := WalkIsPath(g, edges, w, n, n);
    }
    if n, path :| Leads(edges, path, n, n) {
      PathIsWalk(g, edges, path, n, n);
      assert OnCycle(g, n);
    }
  }

  lemma ReachExactly(g: Graph, edges: seq<Edge>, a: NodeId, b: NodeId)
    requires Draws(g, edges)
    ensures Reach(g, a, b) <==> Connected(edges, a, b)
  {
    if Reach(g, a, b) {
      var w :| Connects(g, w, a, b);
      if |w| > 1 {
        var path := WalkIsPath(g, edges, w, a, b);
      }
    }
    if a == b {
      ReachSelf(g, a);
    } else if path :| Leads(edges, path, a, b) {
      PathIsWalk(g, edges, path, a, b);
    }
  }

  // ---------------------------------------------------------------- validation

  ghost predicate OneTrigger(nodes: seq<Node>) {
    exists i :: 0 <= i < |nodes| && nodes[i].kind == "trigger"
                && forall j :: 0 <= j < |nodes| && nodes[j].kind == "trigger" ==> j == i
  }

  ghost predicate RulesChecked(nodes: seq<Node>) {
    forall n :: n in nodes && n.kind == "condition" ==> n.rulesOk
  }

  ghost predicate Known(nodes: seq<Node>, id: NodeId) {
    exists n :: n in nodes && n.id == id
  }

  /** A graph is accepted if and only if one node is a trigger, every condition has checked
      rules, every edge joins nodes it knows, through a handle its source has, and no edges
      lead round. */
  lemma AcceptedInFields(nodes: seq<Node>, edges: seq<Edge>)
    requires forall e :: e in edges ==> e.target != ""
    ensures Validate(nodes, edges).None? <==>
              && OneTrigger(nodes) && RulesChecked(nodes)
              && (forall e :: e in edges ==> Known(nodes, e.source) && Known(nodes, e.target) && Fits(nodes, e))
              && !GoesRound(edges)
  {
    AcceptedExactly(nodes, edges);
    HandlesExactly(nodes, edges);
    SingleTriggerExactly(nodes);
    if EdgesClosed(nodes, edges) {
      BothGraphsDraw(nodes, edges);
      CyclicExactly(NodeGraph(nodes, edges), edges);
    }
  }

  lemma SingleTriggerExactly(nodes: seq<Node>)
    ensures SingleTrigger(nodes) <==> OneTrigger(nodes)
  {
    if i :| 0 <= i < |nodes| && nodes[i].kind == "trigger"
            && forall j :: 0 <= j < |nodes| && nodes[j].kind == "trigger" ==> j == i {
      assert OnlyTrigger(nodes, i);
    }
    if i :| 0 <= i < |nodes| && OnlyTrigger(nodes, i) {
      assert nodes[i].kind == "trigger";
    }
  }

  // ---------------------------------------------------------------- reasons

  lemma {:induction false} FirstConditionBlamed(nodes: seq<Node>) returns (i: nat)
    requires FirstBadCondition(nodes).Some?
    ensures i < |nodes| && FirstBadCondition(nodes) == Some(BadCondition(nodes[i].id))
    ensures nodes[i].kind == "condition" && !nodes[i].rulesOk && RulesChecked(nodes[..i])
  {
    var n := |nodes| - 1;
    if FirstBadCondition(nodes[..n]).Some? {
      i := FirstConditionBlamed(nodes[..n]);
      assert nodes[..n][..i] == nodes[..i];
    } else {
      i := n;
      BadConditionNone(nodes[..n]);
    }
  }

  /** Edge `i` is the first that names a node the graph does not have, its source looked at first. */
  ghost predicate FirstStray(nodes: seq<Node>, edges: seq<Edge>, i: nat, r: Refusal) {
    && i < |edges|
    && (forall e :: e in edges[..i] ==> Known(nodes, e.source) && Known(nodes, e.target))
    && (if !Known(nodes, edges[i].source) then r == UnknownSource(edges[i].id)
        else !Known(nodes, edges[i].target) && r == UnknownTarget(edges[i].id))
  }

  lemma {:induction false} FirstEndpointBlamed(nodes: seq<Node>, edges: seq<Edge>) returns (i: nat)
    requires FirstBadEndpoint(Ids(nodes), edges).Some?
    ensures FirstStray(nodes, edges, i, FirstBadEndpoint(Ids(nodes), edges).value)
  {
    var n := |edges| - 1;
    assert forall id :: id in Ids(nodes) <==> Known(nodes, id);
    if FirstBadEndpoint(Ids(nodes), edges[..n]).Some? {
      i := FirstEndpointBlamed(nodes, edges[..n]);
      assert edges[..n][..i] == edges[..i];
    } else {
      i := n;
      BadEdgesNone(nodes, edges[..n]);
    }
  }

  lemma {:induction false} FirstHandleBlamed(nodes: seq<Node>, edges: seq<Edge>) returns (i: nat)
    requires FirstBadHandle(nodes, edges).Some?
    ensures i < |edges| && FirstBadHandle(nodes, edges) == Some(BadHandle(edges[i].id)) && !Fits(nodes, edges[i])
    ensures forall e :: e in edges[..i] ==> Fits(nodes, e)
  {
    var n := |edges| - 1;
    if FirstBadHandle(nodes, edges[..n]).Some? {
      i := FirstHandleBlamed(nodes, edges[..n]);
      assert edges[..n][..i] == edges[..i];
    } else {
      i := n;
      BadEdgesNone(nodes, edges[..n]);
      HandleExactly(nodes, edges[n]);
      forall e | e in edges[..n] ensures Fits(nodes, e) {
        HandleExactly(nodes, e);
      }
    }
  }

  /** What the answer blames is at fault, and nothing looked at before it was. */
  ghost predicate Blames(nodes: seq<Node>, edges: seq<Edge>, r: Refusal) {
    match r
    case NoTrigger => forall n :: n in nodes ==> n.kind != "trigger"
    case ManyTriggers => exists i, j :: 0 <= i < j < |nodes| && nodes[i].kind == "trigger" == nodes[j].kind
    case BadCondition(id) =>
      OneTrigger(nodes)
      && exists i :: 0 <= i < |nodes| && RulesChecked(nodes[..i])
                     && nodes[i].id == id && nodes[i].kind == "condition" && !nodes[i].rulesOk
    case BadHandle(id) =>
      OneTrigger(nodes) && RulesChecked(nodes)
      && (forall e :: e in edges ==> Known(nodes, e.source) && Known(nodes, e.target))
      && exists i :: 0 <= i < |edges| && (forall e :: e in edges[..i] ==> Fits(nodes, e))
                     && edges[i].id == id && !Fits(nodes, edges[i])
    case Cycle(n) =>
      OneTrigger(nodes) && RulesChecked(nodes)
      && (forall e :: e in edges ==> Known(nodes, e.source) && Known(nodes, e.target) && Fits(nodes, e))
      && exists path :: Leads(edges, path, n, n)
    case _ => OneTrigger(nodes) && RulesChecked(nodes) && exists i :: 0 <= i < |edges| && FirstStray(nodes, edges, i, r)
  }

  lemma {:induction false} SecondTrigger(nodes: seq<Node>) returns (i: nat, j: nat)
    requires CountTriggers(nodes) > 1
    ensures i < j < |nodes| && nodes[i].kind == "trigger" == nodes[j].kind
  {
    var n := |nodes| - 1;
    if CountTriggers(nodes[..n]) > 1 {
      i, j := SecondTrigger(nodes[..n]);
    } else {
      NoTriggerCounted(nodes[..n]);
      i :| 0 <= i < n && nodes[..n][i].kind == "trigger";
      j := n;
    }
  }

  lemma TriggersBlamed(nodes: seq<Node>, edges: seq<Edge>)
    ensures CountTriggers(nodes) == 0 ==> Blames(nodes, edges, NoTrigger)
    ensures CountTriggers(nodes) > 1 ==> Blames(nodes, edges, ManyTriggers)
    ensures CountTriggers(nodes) == 1 ==> OneTrigger(nodes)
  {
    NoTriggerCounted(nodes);
    TriggersCounted(nodes);
    SingleTriggerExactly(nodes);
    if CountTriggers(nodes) > 1 {
      var i, j := SecondTrigger(nodes);
    }
  }

  lemma CycleBlamed(nodes: seq<Node>, edges: seq<Edge>)
    requires (forall e :: e in edges ==> e.target != "") && EdgesClosed(nodes, edges)
    requires FoundCycle(nodes, edges).Some?
    ensures var n := FoundCycle(nodes, edges).value; exists path :: Leads(edges, path, n, n)
  {
    var g := NodeGraph(nodes, edges);
    forall a ensures !Next(g, a, "") {
      TargetsAreEdges(edges, a, "");
    }
    ThrowsExactlyOnCycles(g, IdList(nodes));
    var n := FoundCycle(nodes, edges).value;
    var w :| Connects(g, w, n, n) && |w| > 1;
    BothGraphsDraw(nodes, edges);
    var path := WalkIsPath(g, edges, w, n, n);
  }

  lemma HandlesExactly(nodes: seq<Node>, edges: seq<Edge>)
    ensures HandlesOk(nodes, edges) <==> forall e :: e in edges ==> Fits(nodes, e)
    ensures EdgesClosed(nodes, edges) <==> forall e :: e in edges ==> Known(nodes, e.source) && Known(nodes, e.target)
  {
    forall e ensures HandleOk(nodes, e) <==> Fits(nodes, e) {
      HandleExactly(nodes, e);
    }
    assert forall id :: id in Ids(nodes) <==> Known(nodes, id);
  }

  /** A refusal blames the first thing at fault, in the order the checks are made. */
  lemma RefusalBlamesTheFirst(nodes: seq<Node>, edges: seq<Edge>)
    requires (forall e :: e in edges ==> e.target != "") && Validate(nodes, edges).Some?
    ensures Blames(nodes, edges, Validate(nodes, edges).value)
  {
    TriggersBlamed(nodes, edges);
    if CountTriggers(nodes) == 1 {
      BadConditionNone(nodes);
      if FirstBadCondition(nodes).Some? {
        var i := FirstConditionBlamed(nodes);
      } else {
        EdgeBlamed(nodes, edges);
      }
    }
  }

  lemma EdgeBlamed(nodes: seq<Node>, edges: seq<Edge>)
    requires (forall e :: e in edges ==> e.target != "") && Validate(nodes, edges).Some?
    requires CountTriggers(nodes) == 1 && OneTrigger(nodes)
    requires FirstBadCondition(nodes).None? && RulesChecked(nodes)
    ensures Blames(nodes, edges, Validate(nodes, edges).value)
  {
    BadEdgesNone(nodes, edges);
    HandlesExactly(nodes, edges);
    if FirstBadEndpoint(Ids(nodes), edges).Some? {
      var i := FirstEndpointBlamed(nodes, edges);
    } else if FirstBadHandle(nodes, edges).Some? {
      var i := FirstHandleBlamed(nodes, edges);
    } else {
      CycleBlamed(nodes, edges);
    }
  }

  // ---------------------------------------------------------------- orphans

  lemma {:induction false} UnreachedExactly(nodes: seq<Node>, g: Graph, t: NodeId, id: NodeId)
    ensures id in Unreached(nodes, g, t) <==> exists n :: n in nodes && n.id == id && !Reach(g, t, id)
  {
    if nodes != [] {
      var k := |nodes| - 1;
      UnreachedExactly(nodes[..k], g, t, id);
      assert nodes == nodes[..k] + [nodes[k]];
    }
  }

  /** A node is an orphan if and only if no edges connect it to the first trigger. */
  lemma OrphanExactly(nodes: seq<Node>, edges: seq<Edge>, i: nat, id: NodeId)
    requires i < |nodes| && nodes[i].kind == "trigger" && forall j :: 0 <= j < i ==> nodes[j].kind != "trigger"
    ensures id in Orphans(nodes, edges) <==> Known(nodes, id) && !Connected(edges, nodes[i].id, id)
  {
    FirstTriggerIs(nodes, i);
    BothGraphsDraw(nodes, edges);
    ReachExactly(EdgeGraph(edges), edges, nodes[i].id, id);
    UnreachedExactly(nodes, EdgeGraph(edges), nodes[i].id, id);
  }

  lemma {:induction false} FirstTriggerIs(nodes: seq<Node>, i: nat)
    requires i < |nodes| && nodes[i].kind == "trigger" && forall j :: 0 <= j < i ==> nodes[j].kind != "trigger"
    ensures TriggerOf(nodes) == Some(nodes[i].id)
  {
    if i > 0 {
      assert forall j :: 0 <= j < i ==> nodes[1..][j] == nodes[j + 1];
      FirstTriggerIs(nodes[1..], i - 1);
    }
  }
}
