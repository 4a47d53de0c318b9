/** Requests that overlap: an update or a publish reads and checks a workflow first and
    writes it later, and other requests may write it in between. */
module WorkflowOverlap {
  import opened Options
  import opened WorkflowGraph
  import opened WorkflowValidation
  import opened WorkflowLifecycle

  datatype Seen = Seen(nodes: seq<Node>, edges: seq<Edge>)

  /** A request between its check and its write. A publish reads the draft a second time,
      in the repository, and writes what it read there. */
  datatype InFlight =
    | Patching(id: WorkflowId, nodes: Option<seq<Node>>, edges: Option<seq<Edge>>, seen: Seen)
    | Publishing(id: WorkflowId, seen: Seen)
    | Copying(id: WorkflowId, seen: Seen, read: Seen)
    | Switching(id: WorkflowId, status: WorkflowStatus)

  datatype System = System(store: Store, inFlight: seq<InFlight>)

  datatype Action =
    | Whole(r: Request, now: nat)
    | Check(r: Request)
    | Reread(k: nat)
    | WriteBack(k: nat, now: nat)

  function DraftOf(w: Workflow): Seen {
    Seen(w.nodes, w.edges)
  }

  /** Creating, duplicating and deleting are single writes; a new id is never one in use. */
  predicate Can(s: System, a: Action) {
    match a
    case Whole(r, _) =>
      && (r.Create? || r.Duplicate? || r.Delete?)
      && (!r.Delete? ==> forall i :: 0 <= i < |s.inFlight| ==> s.inFlight[i].id != r.newId)
    case Check(r) => r.Update? || r.Publish? || r.SetStatus?
    case Reread(k) => k < |s.inFlight| && s.inFlight[k].Publishing?
    case WriteBack(k, _) => k < |s.inFlight| && !s.inFlight[k].Publishing?
  }

  function Ticket(store: Store, r: Request): InFlight
    requires (r.Update? || r.Publish? || r.SetStatus?) && r.id in store
  {
    match r
    case Update(id, nodes, edges, _, _) => Patching(id, nodes, edges, DraftOf(store[id]))
    case Publish(id) => Publishing(id, DraftOf(store[id]))
    case SetStatus(id, status) => Switching(id, status)
  }

  function Without(ts: seq<InFlight>, k: nat): seq<InFlight>
    requires k < |ts|
  {
    ts[..k] + ts[k + 1..]
  }

  /** What a write makes of the workflow it finds. */
  function Written(w: Workflow, t: InFlight, now: nat): Workflow
    requires !t.Publishing?
  {
    match t
    case Patching(_, nodes, edges, _) =>
      w.(nodes := nodes.GetOr(w.nodes), edges := edges.GetOr(w.edges), updatedAt := now)
    case Copying(_, _, read) =>
      w.(publishedNodes := read.nodes, publishedEdges := read.edges, version := w.version + 1, updatedAt := now)
    case Switching(_, status) => w.(status := status, updatedAt := now)
  }

  ghost function After(s: System, a: Action): System
    requires Can(s, a)
  {
    match a
    case Whole(r, now) => s.(store := Handle(s.store, r, now))
    case Check(r) => if ReplyTo(s.store, r) == Done then s.(inFlight := s.inFlight + [Ticket(s.store, r)]) else s
    case Reread(k) =>
      var t := s.inFlight[k];
      if t.id in s.store
      then s.(inFlight := s.inFlight[k := Copying(t.id, t.seen, DraftOf(s.store[t.id]))])
      else s.(inFlight := Without(s.inFlight, k))
    case WriteBack(k, now) =>
      var t := s.inFlight[k];
      System(if t.id in s.store then s.store[t.id := Written(s.store[t.id], t, now)] else s.store,
             Without(s.inFlight, k))
  }

  ghost predicate Behaviour(tr: seq<System>, acts: seq<Action>) {
    && |tr| == |acts| + 1 && tr[0] == System(map[], [])
    && forall i {:trigger acts[i]} :: 0 <= i < |acts| ==> Can(tr[i], acts[i]) && tr[i + 1] == After(tr[i], acts[i])
  }

  lemma LastOut(ts: seq<InFlight>, t: InFlight)
    ensures Without(ts + [t], |ts|) == ts
  {
  }

  /** What is written back at once, a publish after its second read, is the request's own write. */
  lemma UnbrokenRequestIsWrite(store: Store, ts: seq<InFlight>, r: Request, now: nat)
    requires (r.Update? || r.Publish? || r.SetStatus?) && r.id in store
    ensures var checked := System(store, ts + [Ticket(store, r)]);
            var ready := if r.Publish? then After(checked, Reread(|ts|)) else checked;
            Can(ready, WriteBack(|ts|, now)) &&
            After(ready, WriteBack(|ts|, now)) == System(Write(store, r, now), ts)
  {
    LastOut(ts, Ticket(store, r));
    if r.Publish? {
      var read := DraftOf(store[r.id]);
      assert (ts + [Ticket(store, r)])[|ts| := Copying(r.id, read, read)] == ts + [Copying(r.id, read, read)];
      LastOut(ts, Copying(r.id, read, read));
    }
  }

  /** A publish whose workflow is gone when it reads again is given up, and stores nothing. */
  lemma GoneIsGivenUp(s: System, k: nat)
    requires Can(s, Reread(k)) && s.inFlight[k].id !in s.store
    ensures After(s, Reread(k)).store == s.store && |After(s, Reread(k)).inFlight| == |s.inFlight| - 1
  {
  }

  // ---------------------------------------------------------------- when a write is sound

  ghost predicate Accepts(nodes: seq<Node>, edges: seq<Edge>) {
    Validate(nodes, edges).None? && EdgesStorable(edges)
  }

  /** The request's own checks, run again on what its write finds, would pass. */
  ghost predicate PassesAgain(s: System, a: Action)
    requires Can(s, a)
  {
    match a
    case WriteBack(k, _) =>
      var t := s.inFlight[k];
      t.id in s.store ==>
        (match t
         case Patching(id, nodes, edges, _) =>
           nodes.Some? || edges.Some? ==>
             Validate(nodes.GetOr(s.store[id].nodes), edges.GetOr(s.store[id].edges)).None?
         case Copying(_, _, read) => Orphans(read.nodes, read.edges) == []
         case Switching(_, _) => true)
    case _ => true
  }

  /** What the request did not replace is still as its check saw it. */
  predicate Undisturbed(s: System, a: Action)
    requires Can(s, a)
  {
    match a
    case WriteBack(k, _) =>
      var t := s.inFlight[k];
      t.id in s.store ==>
        (match t
         case Patching(id, nodes, edges, seen) =>
           && (nodes.Some? || s.store[id].nodes == seen.nodes)
           && (edges.Some? || s.store[id].edges == seen.edges)
         case Copying(_, seen, read) => read == seen
         case Switching(_, _) => true)
    case _ => true
  }

  /** What the checks established about a request in flight. */
  ghost predicate TicketOk(store: Store, t: InFlight) {
    match t
    case Patching(_, nodes, edges, seen) =>
      && EdgesStorable(edges.GetOr([]))
      && (nodes.Some? || edges.Some? ==> Validate(nodes.GetOr(seen.nodes), edges.GetOr(seen.edges)).None?)
    case Publishing(_, seen) => Accepts(seen.nodes, seen.edges) && Orphans(seen.nodes, seen.edges) == []
    case Copying(_, seen, read) =>
      && Accepts(seen.nodes, seen.edges) && Orphans(seen.nodes, seen.edges) == []
      && Accepts(read.nodes, read.edges)
    case Switching(id, status) => status == Active && id in store ==> store[id].publishedNodes != []
  }

  ghost predicate TicketsOk(s: System) {
    forall i :: 0 <= i < |s.inFlight| ==> TicketOk(s.store, s.inFlight[i])
  }

  lemma DraftOkIsAccepted(w: Workflow)
    ensures DraftOk(w) <==> Accepts(w.nodes, w.edges)
  {
    if EdgesStorable(w.edges) {
      StorableHasNoEmptyTargets(w.edges);
      AcceptedExactly(w.nodes, w.edges);
    }
  }

  lemma AcceptedHasNodes(nodes: seq<Node>, edges: seq<Edge>)
    requires Validate(nodes, edges).None?
    ensures nodes != []
  {
  }

  /** Of an accepted graph the orphan check tells whether it is a rooted DAG. */
  lemma RootedExactly(nodes: seq<Node>, edges: seq<Edge>)
    requires Accepts(nodes, edges)
    ensures RootedDag(nodes, edges) <==> Orphans(nodes, edges) == []
  {
    StorableHasNoEmptyTargets(edges);
    if Orphans(nodes, edges) == [] {
      ChecksMakeRootedDag(nodes, edges);
    }
    if RootedDag(nodes, edges) {
      RootedHasNoOrphans(nodes, edges);
    }
  }

  lemma RootedHasNoOrphans(nodes: seq<Node>, edges: seq<Edge>)
    requires RootedDag(nodes, edges)
    ensures Orphans(nodes, edges) == []
  {
    var g, h, t := NodeGraph(nodes, edges), EdgeGraph(edges), TriggerOf(nodes).value;
    forall a ensures Succ(g, a) == Succ(h, a) {
      GraphsAgree(nodes, edges, a);
    }
    forall n | n in nodes ensures Reach(h, t, n.id) {
      assert n.id in Ids(nodes);
      SameReach(g, h, t, n.id);
    }
    NoUnreached(nodes, h, t);
  }

  // ---------------------------------------------------------------- writes

  lemma StoreOkBut(store: Store, id: WorkflowId, w: Workflow)
    requires StoreOk(store) && id in store
    ensures StoreOk(store[id := w]) <==> WorkflowOk(w)
  {
    var later := store[id := w];
    assert id in later && later[id] == w;
    assert forall k :: k in later && k != id ==> WorkflowOk(later[k]);
  }

  lemma PatchExactly(w: Workflow, t: InFlight, now: nat)
    requires t.Patching? && WorkflowOk(w) && TicketOk(map[], t)
    ensures WorkflowOk(Written(w, t, now)) <==>
              (t.nodes.Some? || t.edges.Some? ==>
                 Validate(t.nodes.GetOr(w.nodes), t.edges.GetOr(w.edges)).None?)
  {
    DraftOkIsAccepted(w);
    DraftOkIsAccepted(Written(w, t, now));
  }

  lemma CopyExactly(w: Workflow, t: InFlight, now: nat)
    requires t.Copying? && WorkflowOk(w) && TicketOk(map[], t)
    ensures WorkflowOk(Written(w, t, now)) <==> Orphans(t.read.nodes, t.read.edges) == []
  {
    RootedExactly(t.read.nodes, t.read.edges);
    AcceptedHasNodes(t.read.nodes, t.read.edges);
  }

  lemma WriteExactly(s: System, k: nat, now: nat)
    requires StoreOk(s.store) && TicketsOk(s) && Can(s, WriteBack(k, now))
    ensures StoreOk(After(s, WriteBack(k, now)).store) <==> PassesAgain(s, WriteBack(k, now))
  {
    var t := s.inFlight[k];
    assert TicketOk(s.store, t);
    if t.id in s.store {
      var w := s.store[t.id];
      StoreOkBut(s.store, t.id, Written(w, t, now));
      if t.Patching? {
        PatchExactly(w, t, now);
      } else if t.Copying? {
        CopyExactly(w, t, now);
      }
    }
  }

  // ---------------------------------------------------------------- requests in flight

  lemma CheckedTicketOk(store: Store, r: Request)
    requires StoreOk(store) && (r.Update? || r.Publish? || r.SetStatus?) && ReplyTo(store, r) == Done
    ensures TicketOk(store, Ticket(store, r))
  {
    var w := store[r.id];
    assert WorkflowOk(w);
  }

  /** A ticket stays good while published graphs stay as they are or are replaced by others. */
  lemma TicketStays(store: Store, later: Store, t: InFlight)
    requires TicketOk(store, t)
    requires t.id in later ==> t.id in store && (store[t.id].publishedNodes != [] ==> later[t.id].publishedNodes != [])
    ensures TicketOk(later, t)
  {
  }

  lemma WholeKeepsTickets(s: System, r: Request, now: nat)
    requires TicketsOk(s) && Can(s, Whole(r, now))
    ensures TicketsOk(After(s, Whole(r, now)))
  {
    var t := After(s, Whole(r, now));
    forall i | 0 <= i < |t.inFlight| ensures TicketOk(t.store, t.inFlight[i]) {
      TicketStays(s.store, t.store, s.inFlight[i]);
    }
  }

  lemma RereadKeepsTickets(s: System, k: nat)
    requires StoreOk(s.store) && TicketsOk(s) && Can(s, Reread(k))
    ensures TicketsOk(After(s, Reread(k)))
  {
    var t := After(s, Reread(k));
    var id := s.inFlight[k].id;
    assert TicketOk(s.store, s.inFlight[k]);
    if id in s.store {
      DraftOkIsAccepted(s.store[id]);
      assert WorkflowOk(s.store[id]);
    }
    assert forall i :: 0 <= i < |s.inFlight| ==> TicketOk(s.store, s.inFlight[i]);
  }

  lemma WriteKeepsPublished(s: System, k: nat, now: nat, id: WorkflowId)
    requires TicketsOk(s) && Can(s, WriteBack(k, now)) && id in After(s, WriteBack(k, now)).store
    ensures id in s.store
    ensures s.store[id].publishedNodes != [] ==> After(s, WriteBack(k, now)).store[id].publishedNodes != []
  {
    var t := s.inFlight[k];
    assert TicketOk(s.store, t);
    if t.Copying? {
      AcceptedHasNodes(t.read.nodes, t.read.edges);
    }
  }

  lemma WriteKeepsTickets(s: System, k: nat, now: nat)
    requires TicketsOk(s) && Can(s, WriteBack(k, now))
    ensures TicketsOk(After(s, WriteBack(k, now)))
  {
    var t := After(s, WriteBack(k, now));
    forall i | 0 <= i < |t.inFlight| ensures TicketOk(t.store, t.inFlight[i]) {
      var was := if i < k then i else i + 1;
      assert t.inFlight[i] == s.inFlight[was] && TicketOk(s.store, s.inFlight[was]);
      if s.inFlight[was].id in t.store {
        WriteKeepsPublished(s, k, now, s.inFlight[was].id);
      }
      TicketStays(s.store, t.store, s.inFlight[was]);
    }
  }

  lemma CheckKeepsTickets(s: System, r: Request)
    requires StoreOk(s.store) && TicketsOk(s) && Can(s, Check(r))
    ensures TicketsOk(After(s, Check(r)))
  {
    if ReplyTo(s.store, r) == Done {
      CheckedTicketOk(s.store, r);
    }
  }

  lemma StepExactly(s: System, a: Action)
    requires StoreOk(s.store) && TicketsOk(s) && Can(s, a)
    ensures TicketsOk(After(s, a))
    ensures StoreOk(After(s, a).store) <==> PassesAgain(s, a)
  {
    match a
    case Whole(r, now) =>
      HandleKeeps(s.store, r, now);
      WholeKeepsTickets(s, r, now);
    case Check(r) => CheckKeepsTickets(s, r);
    case Reread(k) => RereadKeepsTickets(s, k);
    case WriteBack(k, now) =>
      WriteExactly(s, k, now);
      WriteKeepsTickets(s, k, now);
  }

  // ---------------------------------------------------------------- runs

  ghost predicate SoundAt(tr: seq<System>, i: nat)
    requires i < |tr|
  {
    StoreOk(tr[i].store)
  }

  ghost predicate TicketsAt(tr: seq<System>, i: nat)
    requires i < |tr|
  {
    TicketsOk(tr[i])
  }

  ghost predicate PassesAt(tr: seq<System>, acts: seq<Action>, i: nat)
    requires Behaviour(tr, acts) && i < |acts|
  {
    PassesAgain(tr[i], acts[i])
  }

  lemma AtStart(tr: seq<System>, acts: seq<Action>)
    requires Behaviour(tr, acts)
    ensures SoundAt(tr, 0) && TicketsAt(tr, 0)
  {
  }

  lemma StepAlong(tr: seq<System>, acts: seq<Action>, i: nat)
    requires Behaviour(tr, acts) && i < |acts| && SoundAt(tr, i) && TicketsAt(tr, i)
    ensures TicketsAt(tr, i + 1) && (SoundAt(tr, i + 1) <==> PassesAt(tr, acts, i))
  {
    StepExactly(tr[i], acts[i]);
  }

  lemma {:induction false} PassingStaysSound(tr: seq<System>, acts: seq<Action>, n: nat)
    requires Behaviour(tr, acts) && n <= |acts|
    requires forall i {:trigger PassesAt(tr, acts, i)} :: 0 <= i < n ==> PassesAt(tr, acts, i)
    ensures SoundAt(tr, n) && TicketsAt(tr, n)
  {
    if n == 0 {
      AtStart(tr, acts);
    } else {
      PassingStaysSound(tr, acts, n - 1);
      StepAlong(tr, acts, n - 1);
    }
  }

  lemma {:induction false} SoundKeepsTickets(tr: seq<System>, acts: seq<Action>, n: nat)
    requires Behaviour(tr, acts) && n <= |acts|
    requires forall i {:trigger SoundAt(tr, i)} :: 0 <= i < n ==> SoundAt(tr, i)
    ensures TicketsAt(tr, n)
  {
    if n == 0 {
      AtStart(tr, acts);
    } else {
      SoundKeepsTickets(tr, acts, n - 1);
      StepAlong(tr, acts, n - 1);
    }
  }

  /** A run of overlapping requests keeps every stored workflow sound, at all times, if and
      only if at each write the checks its request made would pass again. */
  lemma {:induction false} OverlapIsSoundExactly(tr: seq<System>, acts: seq<Action>)
    requires Behaviour(tr, acts)
    ensures (forall i {:trigger SoundAt(tr, i)} :: 0 <= i < |tr| ==> SoundAt(tr, i))
            <==> (forall i {:trigger PassesAt(tr, acts, i)} :: 0 <= i < |acts| ==> PassesAt(tr, acts, i))
  {
    if forall i {:trigger PassesAt(tr, acts, i)} :: 0 <= i < |acts| ==> PassesAt(tr, acts, i) {
      forall i | 0 <= i < |tr| ensures SoundAt(tr, i) {
        PassingStaysSound(tr, acts, i);
      }
    }
    if forall i {:trigger SoundAt(tr, i)} :: 0 <= i < |tr| ==> SoundAt(tr, i) {
      forall i | 0 <= i < |acts| ensures PassesAt(tr, acts, i) {
        SoundKeepsTickets(tr, acts, i);
        StepAlong(tr, acts, i);
      }
    }
  }

  lemma UndisturbedPasses(s: System, a: Action)
    requires TicketsOk(s) && Can(s, a) && Undisturbed(s, a)
    ensures PassesAgain(s, a)
  {
    if a.WriteBack? {
      assert TicketOk(s.store, s.inFlight[a.k]);
    }
  }

  lemma UndisturbedStep(tr: seq<System>, acts: seq<Action>, i: nat)
    requires Behaviour(tr, acts) && i < |acts| && TicketsAt(tr, i) && Undisturbed(tr[i], acts[i])
    ensures PassesAt(tr, acts, i)
  {
    UndisturbedPasses(tr[i], acts[i]);
  }

  /** In particular when what a request did not itself replace never changes between its
      check and its write. */
  lemma {:induction false} UndisturbedRunsStaySound(tr: seq<System>, acts: seq<Action>, n: nat)
    requires Behaviour(tr, acts) && n <= |acts|
    requires forall i {:trigger acts[i]} :: 0 <= i < n ==> Undisturbed(tr[i], acts[i])
    ensures SoundAt(tr, n) && TicketsAt(tr, n)
  {
    if n == 0 {
      AtStart(tr, acts);
    } else {
      UndisturbedRunsStaySound(tr, acts, n - 1);
      UndisturbedStep(tr, acts, n - 1);
      StepAlong(tr, acts, n - 1);
    }
  }

  // ---------------------------------------------------------------- what goes wrong

  const TRIGGER := Node("t", "trigger", true, true)
  const SEND := Node("a", "action", true, true)
  const STRAY := Node("b", "action", true, true)
  const ARROW := Edge("e", "t", "a", None)

  /** The only edge these graphs may have leads from the trigger to the action. */
  ghost predicate Small(nodes: seq<Node>, edges: seq<Edge>) {
    && nodes in {[TRIGGER], [TRIGGER, SEND], [TRIGGER, SEND, STRAY]}
    && (edges == [] || (edges == [ARROW] && SEND in nodes))
  }

  lemma SmallEdges(nodes: seq<Node>, edges: seq<Edge>, a: NodeId, b: NodeId)
    requires Small(nodes, edges) && Next(NodeGraph(nodes, edges), a, b)
    ensures a == "t" && b == "a"
  {
    TargetsAreEdges(edges, a, b);
  }

  lemma SmallHasNoCycle(nodes: seq<Node>, edges: seq<Edge>)
    requires Small(nodes, edges)
    ensures !Cyclic(NodeGraph(nodes, edges))
  {
    var g := NodeGraph(nodes, edges);
    forall n, w | |w| > 1 && Walk(g, w) ensures !Connects(g, w, n, n) {
      SmallEdges(nodes, edges, w[0], w[1]);
      var k := |w| - 2;
      assert Next(g, w[k], w[k + 1]);
      SmallEdges(nodes, edges, w[k], w[k + 1]);
    }
  }

  lemma SmallIsAccepted(nodes: seq<Node>, edges: seq<Edge>)
    requires Small(nodes, edges)
    ensures Validate(nodes, edges).None?
  {
    SmallHasNoCycle(nodes, edges);
    assert OnlyTrigger(nodes, 0);
    assert SEND in nodes ==> SEND.id in Ids(nodes);
    assert TRIGGER in nodes && TRIGGER.id in Ids(nodes);
    AcceptedExactly(nodes, edges);
  }

  lemma SmallIsStorable(nodes: seq<Node>, edges: seq<Edge>)
    requires Small(nodes, edges)
    ensures NodeConfigsOk(nodes) && NodesStorable(nodes) && EdgesStorable(edges)
  {
  }

  lemma SmallCreateReply(nodes: seq<Node>, edges: seq<Edge>)
    requires Small(nodes, edges)
    ensures CreateReply(map[], Create(1, nodes, edges, true)) == WorkflowLifecycle.Done
  {
    SmallIsAccepted(nodes, edges);
    SmallIsStorable(nodes, edges);
  }

  lemma SmallUpdateReply(store: Store, nodes: Option<seq<Node>>, edges: Option<seq<Edge>>)
    requires 1 in store && Small(nodes.GetOr(store[1].nodes), edges.GetOr(store[1].edges))
    ensures UpdateReply(store, Update(1, nodes, edges, None, true)) == WorkflowLifecycle.Done
  {
    SmallIsAccepted(nodes.GetOr(store[1].nodes), edges.GetOr(store[1].edges));
    SmallIsStorable(nodes.GetOr(store[1].nodes), edges.GetOr(store[1].edges));
  }

  ghost predicate Happens(s: System) {
    exists tr, acts :: Behaviour(tr, acts) && tr[|acts|] == s
  }

  lemma Begins()
    ensures Happens(System(map[], []))
  {
    assert Behaviour([System(map[], [])], []);
  }

  lemma GoOn(s: System, a: Action) returns (t: System)
    requires Happens(s) && Can(s, a)
    ensures t == After(s, a) && Happens(t)
  {
    t := After(s, a);
    var tr, acts :| Behaviour(tr, acts) && tr[|acts|] == s;
    var tr2, acts2 := tr + [t], acts + [a];
    forall i {:trigger acts2[i]} | 0 <= i < |acts2|
      ensures Can(tr2[i], acts2[i]) && tr2[i + 1] == After(tr2[i], acts2[i])
    {
      if i < |acts| {
        assert acts2[i] == acts[i];
      }
    }
    assert Behaviour(tr2, acts2) && tr2[|acts2|] == t;
  }

  /** A workflow with these nodes and edges and nothing published. */
  lemma Created(nodes: seq<Node>, edges: seq<Edge>) returns (s: System)
    requires Small(nodes, edges)
    ensures Happens(s) && s == System(map[1 := Workflow(nodes, edges, [], [], Draft, 0, 0)], [])
  {
    Begins();
    SmallCreateReply(nodes, edges);
    s := GoOn(System(map[], []), Whole(Create(1, nodes, edges, true), 0));
  }

  lemma PatchChecked(s: System, nodes: Option<seq<Node>>, edges: Option<seq<Edge>>) returns (t: System)
    requires Happens(s) && 1 in s.store && Small(nodes.GetOr(s.store[1].nodes), edges.GetOr(s.store[1].edges))
    ensures Happens(t)
    ensures t == s.(inFlight := s.inFlight + [Patching(1, nodes, edges, DraftOf(s.store[1]))])
  {
    SmallUpdateReply(s.store, nodes, edges);
    t := GoOn(s, Check(Update(1, nodes, edges, None, true)));
  }

  /** One patch drops a node nothing leads to, another adds an edge to it; each is right on
      the draft both saw, and together they store a draft with an edge to nowhere. */
  lemma OverlappingPatchesBreakTheDraft() returns (s: System)
    ensures Happens(s) && !StoreOk(s.store)
    ensures 1 in s.store && !EdgesClosed(s.store[1].nodes, s.store[1].edges)
  {
    s := Created([TRIGGER, SEND], []);
    s := PatchChecked(s, Some([TRIGGER]), None);
    s := PatchChecked(s, None, Some([ARROW]));
    s := GoOn(s, WriteBack(0, 1));
    s := GoOn(s, WriteBack(0, 2));
    var w := s.store[1];
    assert w.nodes == [TRIGGER] && w.edges == [ARROW];
    assert ARROW in w.edges && ARROW.target !in Ids(w.nodes);
    assert !WorkflowOk(w);
  }

  lemma ArrowReaches()
    ensures Orphans([TRIGGER, SEND], [ARROW]) == []
  {
    var h := EdgeGraph([ARROW]);
    TargetsAreEdges([ARROW], "t", "a");
    EdgeGraphEntry([ARROW], "t");
    assert ARROW in [ARROW] && Next(h, "t", "a");
    ReachSelf(h, "t");
    ReachStep(h, "t", "t", "a");
    NoUnreached([TRIGGER, SEND], h, "t");
  }

  lemma StrayIsUnreachable()
    ensures !Reach(NodeGraph([TRIGGER, SEND, STRAY], [ARROW]), "t", "b")
  {
    var nodes, edges := [TRIGGER, SEND, STRAY], [ARROW];
    var g := NodeGraph(nodes, edges);
    forall w | Walk(g, w) ensures !Connects(g, w, "t", "b") {
      if |w| > 1 {
        var k := |w| - 2;
        assert Next(g, w[k], w[k + 1]);
        SmallEdges(nodes, edges, w[k], w[k + 1]);
      }
    }
  }

  lemma ArrowIsPublishable(store: Store)
    requires 1 in store && store[1].nodes == [TRIGGER, SEND] && store[1].edges == [ARROW]
    ensures PublishReply(store, 1) == WorkflowLifecycle.Done
  {
    var nodes, edges := store[1].nodes, store[1].edges;
    SmallIsAccepted(nodes, edges);
    SmallIsStorable(nodes, edges);
    ArrowReaches();
    assert nodes[0].kind == "trigger" && nodes[1].kind == "action";
  }

  lemma StrayIsNoDag()
    ensures !RootedDag([TRIGGER, SEND, STRAY], [ARROW])
  {
    var nodes := [TRIGGER, SEND, STRAY];
    StrayIsUnreachable();
    assert nodes[2] in nodes && "b" in Ids(nodes);
    assert nodes[0].kind == "trigger" && TriggerOf(nodes) == Some("t");
  }

  lemma PublishChecked(s: System) returns (t: System)
    requires Happens(s) && 1 in s.store && s.store[1].nodes == [TRIGGER, SEND] && s.store[1].edges == [ARROW]
    ensures Happens(t) && t == s.(inFlight := s.inFlight + [Publishing(1, DraftOf(s.store[1]))])
  {
    ArrowIsPublishable(s.store);
    t := GoOn(s, Check(Publish(1)));
  }

  /** The publish has passed its checks, and the stray node is in the draft. */
  lemma StrayInDraft() returns (s: System)
    ensures Happens(s)
    ensures s == System(map[1 := Workflow([TRIGGER, SEND, STRAY], [ARROW], [], [], Draft, 0, 1)],
                        [Publishing(1, Seen([TRIGGER, SEND], [ARROW]))])
  {
    s := Created([TRIGGER, SEND], [ARROW]);
    s := PublishChecked(s);
    s := PatchChecked(s, Some([TRIGGER, SEND, STRAY]), None);
    s := GoOn(s, WriteBack(1, 1));
  }

  /** A node added between a publish's check and its second read is published unconnected. */
  lemma PublishMayPublishAnOrphan() returns (s: System)
    ensures Happens(s) && !StoreOk(s.store)
    ensures 1 in s.store && !PublishedOk(s.store[1]) && s.store[1].publishedNodes != []
  {
    s := StrayInDraft();
    s := GoOn(s, Reread(0));
    s := GoOn(s, WriteBack(0, 2));
    var w := s.store[1];
    assert w.publishedNodes == [TRIGGER, SEND, STRAY] && w.publishedEdges == [ARROW];
    StrayIsNoDag();
    assert !WorkflowOk(w);
  }
}
