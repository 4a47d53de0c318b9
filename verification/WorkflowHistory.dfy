/** What the service answers and stores, told from the requests alone: every field of every
    workflow is what the last accepted request that writes it says. */
module WorkflowHistory {
  import opened Options
  import opened WorkflowGraph
  import opened WorkflowValidation
  import opened WorkflowLifecycle

  // ---------------------------------------------------------------- answers

  /** Every node is of a known kind, and an action or a wait has a configuration that was checked. */
  predicate Runnable(nodes: seq<Node>) {
    forall n :: n in nodes ==>
      || n.kind == "trigger" || n.kind == "condition"
      || (n.kind == "action" && n.configOk) || (n.kind == "wait" && n.configOk)
  }

  predicate NamedThroughout(nodes: seq<Node>, edges: seq<Edge>) {
    (forall n :: n in nodes ==> n.id != "") && forall e :: e in edges ==> e.id != "" && e.source != "" && e.target != ""
  }

  lemma RunnableExactly(nodes: seq<Node>, edges: seq<Edge>)
    ensures Runnable(nodes) <==> NodeConfigsOk(nodes)
    ensures NamedThroughout(nodes, edges) <==> NodesStorable(nodes) && EdgesStorable(edges)
  {
    if NodeConfigsOk(nodes) {
      forall n | n in nodes ensures NodeConfigOk(n) {
      }
    }
    assert forall i :: 0 <= i < |nodes| ==> nodes[i] in nodes;
    assert forall i :: 0 <= i < |edges| ==> edges[i] in edges;
  }

  /** A workflow is created if and only if its graph is valid, its author may run it, and all
      its nodes can run and be stored; a fault of the first three is a bad request. */
  lemma CreatedExactly(store: Store, r: Request)
    requires r.Create?
    ensures var fine := Validate(r.newNodes, r.newEdges).None? && r.permitted && Runnable(r.newNodes);
            && (ReplyTo(store, r) == BadRequest <==> !fine)
            && (ReplyTo(store, r) == Done <==>
                  fine && NamedThroughout(r.newNodes, r.newEdges) && r.newId !in store)
            && (ReplyTo(store, r) == NotStored <==>
                  fine && (!NamedThroughout(r.newNodes, r.newEdges) || r.newId in store))
  {
    RunnableExactly(r.newNodes, r.newEdges);
  }

  /** What an update would make of the draft. */
  function Patched(w: Workflow, r: Request): (seq<Node>, seq<Edge>)
    requires r.Update?
  {
    (if r.nodes.Some? then r.nodes.value else w.nodes, if r.edges.Some? then r.edges.value else w.edges)
  }

  /** The update names another time than that of the last write. */
  predicate Stale(w: Workflow, r: Request)
    requires r.Update?
  {
    r.seenAt.Some? && r.seenAt.value != w.updatedAt
  }

  /** The draft it would leave is valid, its author may run it, and the nodes it brings can run. */
  predicate Fine(w: Workflow, r: Request)
    requires r.Update?
  {
    && (r.nodes.Some? || r.edges.Some? ==> Validate(Patched(w, r).0, Patched(w, r).1).None?)
    && r.permitted && (r.nodes.Some? ==> Runnable(r.nodes.value))
  }

  /** What each update is answered: refused for a missing workflow, else for a stale time, else
      for a fault of the patched draft, else for what the store does not take, else accepted. */
  lemma UpdatedExactly(store: Store, r: Request)
    requires r.Update?
    ensures var reply := ReplyTo(store, r);
            if r.id !in store then reply == NotFound
            else if Stale(store[r.id], r) then reply == Conflict
            else if !Fine(store[r.id], r) then reply == BadRequest
            else if (r.nodes.Some? && !NamedThroughout(r.nodes.value, []))
                    || (r.edges.Some? && !NamedThroughout([], r.edges.value)) then reply == NotStored
            else reply == Done
  {
    RunnableExactly(r.nodes.GetOr([]), r.edges.GetOr([]));
  }

  /** A workflow can be published if and only if its draft is valid, has an action, and every
      node can run and be reached. */
  lemma PublishableExactly(store: Store, id: WorkflowId)
    ensures ReplyTo(store, Publish(id)) == Done <==>
              && id in store
              && (exists n :: n in store[id].nodes && n.kind == "trigger")
              && (exists n :: n in store[id].nodes && n.kind == "action")
              && Validate(store[id].nodes, store[id].edges).None? && Runnable(store[id].nodes)
              && Orphans(store[id].nodes, store[id].edges) == []
    ensures ReplyTo(store, Publish(id)) in {Done, BadRequest, NotFound}
    ensures ReplyTo(store, Publish(id)) == NotFound <==> id !in store
  {
    if id in store {
      RunnableExactly(store[id].nodes, []);
      HasKindExactly(store[id].nodes, "trigger");
      HasKindExactly(store[id].nodes, "action");
    }
  }

  lemma HasKindExactly(nodes: seq<Node>, kind: string)
    ensures HasKind(nodes, kind) <==> exists n :: n in nodes && n.kind == kind
  {
    if n :| n in nodes && n.kind == kind {
      var i :| 0 <= i < |nodes| && nodes[i] == n;
    }
    if i :| 0 <= i < |nodes| && nodes[i].kind == kind {
      assert nodes[i] in nodes;
    }
  }

  /** The other requests need only the workflow they name, and activation something published. */
  lemma OthersAcceptedExactly(store: Store, id: WorkflowId, newId: WorkflowId, st: WorkflowStatus)
    ensures ReplyTo(store, SetStatus(id, st)) == Done <==>
              id in store && (st == Active ==> |store[id].publishedNodes| > 0)
    ensures ReplyTo(store, Duplicate(id, newId)) == Done <==> id in store && newId !in store
    ensures ReplyTo(store, Delete(id)) == Done <==> id in store
    ensures forall r :: r in {SetStatus(id, st), Duplicate(id, newId), Delete(id)} ==>
              (ReplyTo(store, r) == NotFound <==> id !in store)
    ensures ReplyTo(store, SetStatus(id, st)) in {Done, NotFound, BadRequest}
    ensures ReplyTo(store, Duplicate(id, newId)) in {Done, NotFound, NotStored}
  {
  }

  // ---------------------------------------------------------------- what is stored

  predicate Begets(r: Request, id: WorkflowId) {
    (r.Create? || r.Duplicate?) && r.newId == id
  }

  /** A request that is refused changes nothing; one that is accepted adds the workflow it
      begets, removes the one it deletes, and leaves every workflow it does not name alone. */
  lemma OnlyTheNamedChange(store: Store, r: Request, now: nat, id: WorkflowId)
    ensures ReplyTo(store, r) != Done ==> Handle(store, r, now) == store
    ensures ReplyTo(store, r) == Done ==>
              (id in Handle(store, r, now) <==> Begets(r, id) || (id in store && r != Delete(id)))
    ensures id in store && id in Handle(store, r, now) && Handle(store, r, now)[id] != store[id] ==>
              ReplyTo(store, r) == Done && (r.Update? || r.Publish? || r.SetStatus?) && r.id == id
  {
  }

  /** A field, or a pair of fields written together. */
  datatype Aspect = PublishedGraph | VersionNumber | StatusField | DraftNodes | DraftEdges | Timestamp

  /** The request writes this aspect of the workflow, if it is accepted. */
  predicate Marks(r: Request, id: WorkflowId, a: Aspect) {
    || r == Delete(id) || Begets(r, id)
    || (match a
        case PublishedGraph => r == Publish(id)
        case VersionNumber => r == Publish(id)
        case StatusField => r.SetStatus? && r.id == id
        case DraftNodes => r.Update? && r.id == id && r.nodes.Some?
        case DraftEdges => r.Update? && r.id == id && r.edges.Some?
        case Timestamp => (r.Update? || r.Publish? || r.SetStatus?) && r.id == id)
  }

  /** What a new workflow starts with: its own graph or a copy, unpublished, a draft. */
  ghost predicate Newborn(w: Workflow, before: Store, r: Request, now: nat, a: Aspect) {
    match a
    case PublishedGraph => w.publishedNodes == [] && w.publishedEdges == []
    case VersionNumber => w.version == 0
    case StatusField => w.status == Draft
    case DraftNodes => if r.Create? then w.nodes == r.newNodes
                       else r.Duplicate? && r.id in before && w.nodes == before[r.id].nodes
    case DraftEdges => if r.Create? then w.edges == r.newEdges
                       else r.Duplicate? && r.id in before && w.edges == before[r.id].edges
    case Timestamp => w.updatedAt == now
  }

  /** The aspect is what the request, handled at `now` with `before` stored, says. */
  ghost predicate Explains(w: Workflow, before: Store, r: Request, now: nat, id: WorkflowId, a: Aspect) {
    if Begets(r, id) then Newborn(w, before, r, now, a)
    else
      match a
      case PublishedGraph =>
        r == Publish(id) && id in before && w.publishedNodes == before[id].nodes && w.publishedEdges == before[id].edges
      case VersionNumber => r == Publish(id) && id in before && w.version == before[id].version + 1
      case StatusField => r == SetStatus(id, w.status)
      case DraftNodes => r.Update? && r.id == id && r.nodes == Some(w.nodes)
      case DraftEdges => r.Update? && r.id == id && r.edges == Some(w.edges)
      case Timestamp => (r.Update? || r.Publish? || r.SetStatus?) && r.id == id && w.updatedAt == now
  }

  predicate Same(v: Workflow, w: Workflow, a: Aspect) {
    match a
    case PublishedGraph => v.publishedNodes == w.publishedNodes && v.publishedEdges == w.publishedEdges
    case VersionNumber => v.version == w.version
    case StatusField => v.status == w.status
    case DraftNodes => v.nodes == w.nodes
    case DraftEdges => v.edges == w.edges
    case Timestamp => v.updatedAt == w.updatedAt
  }

  lemma MarkExplains(store: Store, r: Request, now: nat, id: WorkflowId, a: Aspect)
    requires ReplyTo(store, r) == Done && Marks(r, id, a) && id in Handle(store, r, now)
    ensures Explains(Handle(store, r, now)[id], store, r, now, id, a)
  {
  }

  lemma UnmarkedKeeps(store: Store, r: Request, now: nat, id: WorkflowId, a: Aspect)
    requires id in Handle(store, r, now) && (ReplyTo(store, r) == Done ==> !Marks(r, id, a))
    ensures id in store && Same(Handle(store, r, now)[id], store[id], a)
  {
  }

  /** Which of the requests were accepted. */
  ghost predicate Answers(accepted: seq<bool>, stores: seq<Store>, log: Log) {
    && Run(stores, log) && |accepted| == |log|
    && forall i {:trigger accepted[i]} :: 0 <= i < |log| ==> (accepted[i] <==> ReplyTo(stores[i], log[i].0) == Done)
  }

  /** Request `k` was accepted, and wrote the aspect or deleted the workflow. */
  predicate MarkedAt(accepted: seq<bool>, log: Log, k: nat, id: WorkflowId, a: Aspect)
    requires k < |log| == |accepted|
  {
    accepted[k] && Marks(log[k].0, id, a)
  }

  /** Of the first `n` requests, the `k`-th is the last such one. */
  predicate LastMark(accepted: seq<bool>, log: Log, n: nat, k: nat, id: WorkflowId, a: Aspect)
    requires n <= |log| == |accepted|
  {
    && k < n && MarkedAt(accepted, log, k, id, a)
    && forall m {:trigger MarkedAt(accepted, log, m, id, a)} :: k < m < n ==> !MarkedAt(accepted, log, m, id, a)
  }

  lemma LastMarkStays(accepted: seq<bool>, log: Log, n: nat, k: nat, id: WorkflowId, a: Aspect)
    requires n < |log| == |accepted|
    requires LastMark(accepted, log, n, k, id, a) && !MarkedAt(accepted, log, n, id, a)
    ensures LastMark(accepted, log, n + 1, k, id, a)
  {
  }

  lemma SameExplanation(w: Workflow, v: Workflow, before: Store, r: Request, now: nat, id: WorkflowId, a: Aspect)
    requires Explains(w, before, r, now, id, a) && Same(v, w, a)
    ensures Explains(v, before, r, now, id, a)
  {
  }

  /** Request `m` either explains the aspect after it, or left it alone. */
  ghost predicate MarksOrKeeps(accepted: seq<bool>, stores: seq<Store>, log: Log, m: nat, id: WorkflowId, a: Aspect)
    requires m < |log| == |accepted| && |stores| == |log| + 1
  {
    id in stores[m + 1] ==>
      if MarkedAt(accepted, log, m, id, a)
      then Explains(stores[m + 1][id], stores[m], log[m].0, log[m].1, id, a)
      else id in stores[m] && Same(stores[m + 1][id], stores[m][id], a)
  }

  lemma EachMarksOrKeeps(accepted: seq<bool>, stores: seq<Store>, log: Log, m: nat, id: WorkflowId, a: Aspect)
    requires Answers(accepted, stores, log) && m < |log|
    ensures MarksOrKeeps(accepted, stores, log, m, id, a)
  {
    if id in stores[m + 1] {
      if MarkedAt(accepted, log, m, id, a) {
        MarkExplains(stores[m], log[m].0, log[m].1, id, a);
      } else {
        UnmarkedKeeps(stores[m], log[m].0, log[m].1, id, a);
      }
    }
  }

  lemma {:induction false} LastMarkExplains(accepted: seq<bool>, stores: seq<Store>, log: Log, n: nat, id: WorkflowId,
                                            a: Aspect) returns (k: nat)
    requires |log| == |accepted| && n < |stores| == |log| + 1 && id in stores[n] && id !in stores[0]
    requires forall m {:trigger MarksOrKeeps(accepted, stores, log, m, id, a)} ::
               0 <= m < n ==> MarksOrKeeps(accepted, stores, log, m, id, a)
    ensures LastMark(accepted, log, n, k, id, a) && Explains(stores[n][id], stores[k], log[k].0, log[k].1, id, a)
  {
    assert MarksOrKeeps(accepted, stores, log, n - 1, id, a);
    if MarkedAt(accepted, log, n - 1, id, a) {
      k := n - 1;
    } else {
      k := LastMarkExplains(accepted, stores, log, n - 1, id, a);
      LastMarkStays(accepted, log, n - 1, k, id, a);
      SameExplanation(stores[n - 1][id], stores[n][id], stores[k], log[k].0, log[k].1, id, a);
    }
  }

  /** After any run every field of a workflow is what the last accepted request that writes it
      says: the graph executed is the draft at the last publish, the version counts the
      publishes, the status is the one last asked for, the draft is the last patch. */
  lemma EveryFieldIsItsLastWrite(accepted: seq<bool>, stores: seq<Store>, log: Log, n: nat, id: WorkflowId, a: Aspect)
    returns (k: nat)
    requires Answers(accepted, stores, log) && n < |stores| && id in stores[n]
    ensures LastMark(accepted, log, n, k, id, a) && Explains(stores[n][id], stores[k], log[k].0, log[k].1, id, a)
  {
    forall m | 0 <= m < n ensures MarksOrKeeps(accepted, stores, log, m, id, a) {
      EachMarksOrKeeps(accepted, stores, log, m, id, a);
    }
    k := LastMarkExplains(accepted, stores, log, n, id, a);
  }

  lemma OneLastMark(accepted: seq<bool>, log: Log, n: nat, k: nat, m: nat, id: WorkflowId, a: Aspect)
    requires n <= |log| == |accepted|
    requires LastMark(accepted, log, n, k, id, a) && LastMark(accepted, log, n, m, id, a)
    ensures k == m
  {
  }

  /** Of the first `n` requests, `r` is the last accepted one that writes the aspect. */
  ghost predicate LastWas(accepted: seq<bool>, log: Log, n: nat, r: Request, id: WorkflowId, a: Aspect)
    requires n <= |log| == |accepted|
  {
    exists k :: 0 <= k < n && LastMark(accepted, log, n, k, id, a) && log[k].0 == r
  }

  lemma LastWasExactly(accepted: seq<bool>, log: Log, n: nat, k: nat, r: Request, id: WorkflowId, a: Aspect)
    requires n <= |log| == |accepted| && LastMark(accepted, log, n, k, id, a)
    ensures LastWas(accepted, log, n, r, id, a) <==> log[k].0 == r
  {
    forall m | 0 <= m < n && LastMark(accepted, log, n, m, id, a) ensures m == k {
      OneLastMark(accepted, log, n, k, m, id, a);
    }
  }

  /** A workflow has a status other than `draft` if and only if the last status asked for, since
      it was created or copied, was that one. */
  lemma StatusIsTheLastAskedFor(accepted: seq<bool>, stores: seq<Store>, log: Log, n: nat, id: WorkflowId,
                                st: WorkflowStatus)
    requires Answers(accepted, stores, log) && n < |stores| && id in stores[n] && st != Draft
    ensures stores[n][id].status == st <==> LastWas(accepted, log, n, SetStatus(id, st), id, StatusField)
  {
    var k := EveryFieldIsItsLastWrite(accepted, stores, log, n, id, StatusField);
    LastWasExactly(accepted, log, n, k, SetStatus(id, st), id, StatusField);
  }

  /** Activation is allowed exactly when the last request to create or publish the workflow
      published it. */
  lemma ActivatedOnlyIfPublished(accepted: seq<bool>, stores: seq<Store>, log: Log, n: nat, id: WorkflowId)
    requires Answers(accepted, stores, log) && n < |stores| && id in stores[n]
    ensures ReplyTo(stores[n], SetStatus(id, Active)) == Done
            <==> LastWas(accepted, log, n, Publish(id), id, PublishedGraph)
  {
    var k := EveryFieldIsItsLastWrite(accepted, stores, log, n, id, PublishedGraph);
    LastWasExactly(accepted, log, n, k, Publish(id), id, PublishedGraph);
    if log[k].0 == Publish(id) {
      EveryRunKeepsWorkflowsSound(stores, log, k);
      assert WorkflowOk(stores[k][id]);
    }
  }

  /** An accepted update that says what it saw saw the last write: no request was accepted for
      the workflow after the one whose time it names. */
  lemma AcceptedUpdateSawTheLastWrite(accepted: seq<bool>, stores: seq<Store>, log: Log, n: nat) returns (k: nat)
    requires Answers(accepted, stores, log) && n < |log| && accepted[n] && log[n].0.Update? && log[n].0.seenAt.Some?
    ensures LastMark(accepted, log, n, k, log[n].0.id, Timestamp) && log[k].1 == log[n].0.seenAt.value
  {
    UpdatedExactly(stores[n], log[n].0);
    k := EveryFieldIsItsLastWrite(accepted, stores, log, n, log[n].0.id, Timestamp);
  }

  // ---------------------------------------------------------------- what can run

  /** The draft could run, and what is published, if anything, can and does something. */
  ghost predicate CanRun(w: Workflow) {
    && Runnable(w.nodes)
    && (w.publishedNodes != [] ==>
          Runnable(w.publishedNodes) && exists n :: n in w.publishedNodes && n.kind == "action")
  }

  lemma HandleKeepsRunnable(store: Store, r: Request, now: nat, id: WorkflowId)
    requires id in Handle(store, r, now)
    requires forall k :: k in store ==> CanRun(store[k])
    ensures CanRun(Handle(store, r, now)[id])
  {
    if ReplyTo(store, r) == Done {
      match r
      case Create(_, nodes, edges, _) => RunnableExactly(nodes, edges);
      case Update(_, nodes, _, _, _) => RunnableExactly(nodes.GetOr([]), []);
      case Publish(i) => PublishableExactly(store, i);
      case _ =>
    }
  }

  /** After any run what is executed has an action, nodes of known kinds and checked settings. */
  lemma {:induction false} PublishedCanRun(stores: seq<Store>, log: Log, n: nat, id: WorkflowId)
    requires Run(stores, log) && n < |stores| && id in stores[n]
    ensures CanRun(stores[n][id])
  {
    var before := stores[n - 1];
    forall k | k in before ensures CanRun(before[k]) {
      PublishedCanRun(stores, log, n - 1, k);
    }
    HandleKeepsRunnable(before, log[n - 1].0, log[n - 1].1, id);
  }
}
