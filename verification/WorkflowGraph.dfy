/** Structural checks on an automation workflow's graph: three-colour cycle detection,
    reachability from the trigger, and what the two together establish. */
module WorkflowGraph {
  import opened Options

  type NodeId = string
  type Graph = map<NodeId, seq<NodeId>>

  /** Outgoing edges in the order they were added; none for an unknown node. */
  function Succ(g: Graph, n: NodeId): seq<NodeId> {
    if n in g then g[n] else []
  }

  predicate Next(g: Graph, a: NodeId, b: NodeId) {
    b in Succ(g, a)
  }

  function Universe(g: Graph): set<NodeId> {
    g.Keys + set k, i | k in g && 0 <= i < |g[k]| :: g[k][i]
  }

  // ---------------------------------------------------------------- walks

  ghost predicate Walk(g: Graph, w: seq<NodeId>) {
    |w| > 0 && forall i :: 0 <= i < |w| - 1 ==> Next(g, w[i], w[i + 1])
  }

  ghost predicate Connects(g: Graph, w: seq<NodeId>, a: NodeId, b: NodeId) {
    Walk(g, w) && w[0] == a && w[|w| - 1] == b
  }

  ghost predicate Reach(g: Graph, a: NodeId, b: NodeId) {
    exists w :: Connects(g, w, a, b)
  }

  ghost predicate OnCycle(g: Graph, n: NodeId) {
    exists w :: |w| > 1 && Connects(g, w, n, n)
  }

  ghost predicate Cyclic(g: Graph) {
    exists n :: OnCycle(g, n)
  }

  /** No edge leads into a node whose id is the empty string, which the code takes for "no node". */
  ghost predicate NoEmptyTarget(g: Graph) {
    forall a :: !Next(g, a, "")
  }

  lemma WalkSnoc(g: Graph, w: seq<NodeId>, b: NodeId)
    requires Walk(g, w) && Next(g, w[|w| - 1], b)
    ensures Walk(g, w + [b])
  {
  }

  lemma WalkFrom(g: Graph, w: seq<NodeId>, i: nat)
    requires Walk(g, w) && i < |w|
    ensures Walk(g, w[i..])
  {
  }

  /** Closing a walk back to one of its nodes makes a cycle. */
  lemma ClosingMakesCycle(g: Graph, w: seq<NodeId>, b: NodeId)
    requires Walk(g, w) && b in w && Next(g, w[|w| - 1], b)
    ensures OnCycle(g, b) && Cyclic(g)
  {
    var i :| 0 <= i < |w| && w[i] == b;
    WalkFrom(g, w, i);
    WalkSnoc(g, w[i..], b);
    var around := w[i..] + [b];
    assert |around| > 1 && Connects(g, around, b, b);
    assert OnCycle(g, b);
  }

  // ---------------------------------------------------------------- depth-first search

  /** The source keeps 0 for an unvisited node, here absent from the map; 1 is `OnStack`, 2 `Explored`. */
  datatype Mark = OnStack | Explored

  type Marks = map<NodeId, Mark>

  datatype Visit = Visit(marks: Marks, found: Option<NodeId>)

  /** `if (found)`: the empty id counts as nothing found. */
  predicate Truthy(found: Option<NodeId>) {
    found.Some? && found.value != ""
  }

  function Unvisited(g: Graph, marks: Marks): set<NodeId> {
    Universe(g) - marks.Keys
  }

  lemma EnteringShrinks(g: Graph, marks: Marks, n: NodeId)
    requires n in Universe(g) && n !in marks
    ensures Unvisited(g, marks[n := OnStack]) < Unvisited(g, marks)
  {
    assert n in Unvisited(g, marks) && n !in Unvisited(g, marks[n := OnStack]);
  }

  function VisitNode(g: Graph, marks: Marks, n: NodeId): (r: Visit)
    requires n in Universe(g) && n !in marks && marks.Keys <= Universe(g)
    ensures marks.Keys + {n} <= r.marks.Keys <= Universe(g)
    decreases Unvisited(g, marks), 0
  {
    VisitFrom(g, marks[n := OnStack], n, 0)
  }

  /** The loop of `visit` over the edges of `n`, from its `i`-th edge on. */
  function VisitFrom(g: Graph, marks: Marks, n: NodeId, i: nat): (r: Visit)
    requires n in marks && i <= |Succ(g, n)| && marks.Keys <= Universe(g)
    ensures marks.Keys <= r.marks.Keys <= Universe(g)
    decreases Unvisited(g, marks), 1 + |Succ(g, n)| - i
  {
    if i == |Succ(g, n)| then Visit(marks[n := Explored], None)
    else
      var next := Succ(g, n)[i];
      if next !in marks then
        var inner := VisitNode(g, marks, next);
        if Truthy(inner.found) then inner else VisitFrom(g, inner.marks, n, i + 1)
      else if marks[next] == OnStack then Visit(marks, Some(next))
      else VisitFrom(g, marks, n, i + 1)
  }

  /** The outer loop of `assertNoCycle`; the node it throws for, if it throws. */
  function Search(g: Graph, order: seq<NodeId>, marks: Marks): Option<NodeId>
    requires marks.Keys <= Universe(g) && forall n :: n in order ==> n in g
  {
    if order == [] then None
    else if order[0] in marks then Search(g, order[1..], marks)
    else
      var r := VisitNode(g, marks, order[0]);
      if Truthy(r.found) then r.found else Search(g, order[1..], r.marks)
  }

  // ---------------------------------------------------------------- soundness

  /** Every node marked on the stack is there, unless an empty id cut a visit short. */
  ghost predicate StackOk(g: Graph, marks: Marks, stack: seq<NodeId>) {
    forall k :: k in marks && marks[k] == OnStack ==> k in stack || (Cyclic(g) && !NoEmptyTarget(g))
  }

  /** What a visit may claim: a node found is on a cycle. */
  ghost predicate ClaimOk(g: Graph, found: Option<NodeId>) {
    found.Some? ==>
      && Cyclic(g)
      && (NoEmptyTarget(g) ==> found.value != "" && OnCycle(g, found.value))
  }

  lemma {:induction false} VisitNodeSound(g: Graph, marks: Marks, n: NodeId, stack: seq<NodeId>)
    requires n in Universe(g) && n !in marks && marks.Keys <= Universe(g)
    requires Walk(g, stack + [n]) && StackOk(g, marks, stack)
    ensures var r := VisitNode(g, marks, n);
            ClaimOk(g, r.found) && (!Truthy(r.found) ==> StackOk(g, r.marks, stack))
    decreases Unvisited(g, marks), 0
  {
    EnteringShrinks(g, marks, n);
    VisitFromSound(g, marks[n := OnStack], n, 0, stack);
  }

  lemma {:induction false} VisitFromSound(g: Graph, marks: Marks, n: NodeId, i: nat, stack: seq<NodeId>)
    requires n in marks && i <= |Succ(g, n)| && marks.Keys <= Universe(g)
    requires Walk(g, stack + [n]) && StackOk(g, marks, stack + [n])
    ensures var r := VisitFrom(g, marks, n, i);
            ClaimOk(g, r.found) && (!Truthy(r.found) ==> StackOk(g, r.marks, stack))
    decreases Unvisited(g, marks), 1 + |Succ(g, n)| - i
  {
    if i < |Succ(g, n)| {
      var next := Succ(g, n)[i];
      assert Next(g, n, next);
      if next !in marks {
        WalkSnoc(g, stack + [n], next);
        VisitNodeSound(g, marks, next, stack + [n]);
        var inner := VisitNode(g, marks, next);
        if !Truthy(inner.found) {
          VisitFromSound(g, inner.marks, n, i + 1, stack);
        }
      } else if marks[next] == OnStack {
        if next in stack + [n] {
          ClosingMakesCycle(g, stack + [n], next);
        }
      } else {
        VisitFromSound(g, marks, n, i + 1, stack);
      }
    }
  }

  lemma {:induction false} SearchSound(g: Graph, order: seq<NodeId>, marks: Marks)
    requires marks.Keys <= Universe(g) && (forall n :: n in order ==> n in g) && StackOk(g, marks, [])
    ensures ClaimOk(g, Search(g, order, marks))
  {
    if order != [] {
      if order[0] in marks {
        SearchSound(g, order[1..], marks);
      } else {
        assert Walk(g, [] + [order[0]]);
        VisitNodeSound(g, marks, order[0], []);
        var r := VisitNode(g, marks, order[0]);
        if !Truthy(r.found) {
          SearchSound(g, order[1..], r.marks);
        }
      }
    }
  }

  // ---------------------------------------------------------------- completeness

  /** Explored nodes lead only to explored nodes, and none of them is on a cycle. */
  ghost predicate ExploredOk(g: Graph, marks: Marks) {
    forall k :: k in marks && marks[k] == Explored ==> Closed(g, marks, k) && !OnCycle(g, k)
  }

  ghost predicate Closed(g: Graph, marks: Marks, k: NodeId) {
    forall b :: Next(g, k, b) ==> b in marks && marks[b] == Explored
  }

  /** A walk never leaves the explored nodes. */
  lemma {:induction false} StaysExplored(g: Graph, marks: Marks, w: seq<NodeId>, i: nat)
    requires ExploredOk(g, marks) && Walk(g, w) && i < |w|
    requires w[0] in marks && marks[w[0]] == Explored
    ensures w[i] in marks && marks[w[i]] == Explored
  {
    if i > 0 {
      StaysExplored(g, marks, w, i - 1);
      assert Closed(g, marks, w[i - 1]) && Next(g, w[i - 1], w[i]);
    }
  }

  /** A node whose successors are all explored, itself still on the stack, is on no cycle. */
  lemma FinishedIsAcyclic(g: Graph, marks: Marks, n: NodeId)
    requires ExploredOk(g, marks) && n in marks && marks[n] == OnStack && Closed(g, marks, n)
    ensures ExploredOk(g, marks[n := Explored])
  {
    if OnCycle(g, n) {
      var w :| |w| > 1 && Connects(g, w, n, n);
      assert Next(g, w[0], w[1]);
      WalkFrom(g, w, 1);
      StaysExplored(g, marks, w[1..], |w| - 2);
      assert false;
    }
  }

  /** What is already marked stays as it is. */
  ghost predicate Extends(marks: Marks, later: Marks) {
    forall k :: k in marks ==> k in later && later[k] == marks[k]
  }

  lemma {:induction false} VisitNodeComplete(g: Graph, marks: Marks, n: NodeId)
    requires n in Universe(g) && n !in marks && marks.Keys <= Universe(g)
    requires NoEmptyTarget(g) && ExploredOk(g, marks)
    ensures var r := VisitNode(g, marks, n);
            r.found.None? ==> ExploredOk(g, r.marks) && r.marks[n] == Explored && Extends(marks, r.marks)
    decreases Unvisited(g, marks), 0
  {
    var entered := marks[n := OnStack];
    forall k | k in entered && entered[k] == Explored ensures Closed(g, entered, k) && !OnCycle(g, k) {
      assert Closed(g, marks, k);
    }
    EnteringShrinks(g, marks, n);
    VisitFromComplete(g, entered, n, 0);
  }

  ghost predicate ExploredUpTo(g: Graph, marks: Marks, n: NodeId, i: nat)
    requires i <= |Succ(g, n)|
  {
    forall j :: 0 <= j < i ==> Succ(g, n)[j] in marks && marks[Succ(g, n)[j]] == Explored
  }

  lemma StillExplored(g: Graph, marks: Marks, later: Marks, n: NodeId, i: nat)
    requires i < |Succ(g, n)| && ExploredUpTo(g, marks, n, i) && Extends(marks, later)
    requires Succ(g, n)[i] in later && later[Succ(g, n)[i]] == Explored
    ensures ExploredUpTo(g, later, n, i + 1)
  {
  }

  lemma AllExploredIsClosed(g: Graph, marks: Marks, n: NodeId)
    requires ExploredUpTo(g, marks, n, |Succ(g, n)|)
    ensures Closed(g, marks, n)
  {
  }

  /** What a visit of `n` that found nothing leaves behind. */
  ghost predicate Finished(g: Graph, marks: Marks, later: Marks, n: NodeId) {
    && ExploredOk(g, later)
    && n in later && later[n] == Explored
    && forall k :: k in marks && k != n ==> k in later && later[k] == marks[k]
  }

  lemma FinishedIsTransitive(g: Graph, marks: Marks, mid: Marks, later: Marks, n: NodeId)
    requires Extends(marks, mid) && Finished(g, mid, later, n)
    ensures Finished(g, marks, later, n)
  {
  }

  lemma {:induction false} VisitFromComplete(g: Graph, marks: Marks, n: NodeId, i: nat)
    requires n in marks && marks[n] == OnStack && i <= |Succ(g, n)| && marks.Keys <= Universe(g)
    requires NoEmptyTarget(g) && ExploredOk(g, marks) && ExploredUpTo(g, marks, n, i)
    ensures VisitFrom(g, marks, n, i).found.None? ==> Finished(g, marks, VisitFrom(g, marks, n, i).marks, n)
    decreases Unvisited(g, marks), 1 + |Succ(g, n)| - i
  {
    if i == |Succ(g, n)| {
      AllExploredIsClosed(g, marks, n);
      FinishedIsAcyclic(g, marks, n);
      return;
    }
    var next := Succ(g, n)[i];
    if next !in marks {
      VisitNodeComplete(g, marks, next);
      VisitNodeNamesTargets(g, marks, next);
      var inner := VisitNode(g, marks, next);
      if inner.found.None? {
        var rest := VisitFrom(g, inner.marks, n, i + 1);
        assert VisitFrom(g, marks, n, i) == rest;
        StillExplored(g, marks, inner.marks, n, i);
        VisitFromComplete(g, inner.marks, n, i + 1);
        if rest.found.None? {
          FinishedIsTransitive(g, marks, inner.marks, rest.marks, n);
        }
      } else {
        assert VisitFrom(g, marks, n, i) == inner;
      }
    } else if marks[next] == Explored {
      VisitFromComplete(g, marks, n, i + 1);
    }
  }

  /** A visit only ever names the target of an edge. */
  lemma {:induction false} VisitNodeNamesTargets(g: Graph, marks: Marks, n: NodeId)
    requires n in Universe(g) && n !in marks && marks.Keys <= Universe(g)
    ensures var f := VisitNode(g, marks, n).found; f.Some? ==> exists a :: Next(g, a, f.value)
    decreases Unvisited(g, marks), 0
  {
    EnteringShrinks(g, marks, n);
    VisitFromNamesTargets(g, marks[n := OnStack], n, 0);
  }

  lemma {:induction false} VisitFromNamesTargets(g: Graph, marks: Marks, n: NodeId, i: nat)
    requires n in marks && i <= |Succ(g, n)| && marks.Keys <= Universe(g)
    ensures var f := VisitFrom(g, marks, n, i).found; f.Some? ==> exists a :: Next(g, a, f.value)
    decreases Unvisited(g, marks), 1 + |Succ(g, n)| - i
  {
    if i < |Succ(g, n)| {
      var next := Succ(g, n)[i];
      assert Next(g, n, next);
      if next !in marks {
        VisitNodeNamesTargets(g, marks, next);
        VisitFromNamesTargets(g, VisitNode(g, marks, next).marks, n, i + 1);
      } else if marks[next] == Explored {
        VisitFromNamesTargets(g, marks, n, i + 1);
      }
    }
  }

  lemma {:induction false} SearchComplete(g: Graph, order: seq<NodeId>, marks: Marks)
    requires marks.Keys <= Universe(g) && (forall n :: n in order ==> n in g)
    requires NoEmptyTarget(g) && ExploredOk(g, marks)
    requires forall k :: k in marks ==> marks[k] == Explored
    ensures Search(g, order, marks).None? ==>
              forall n :: n in order || n in marks ==> !OnCycle(g, n)
    decreases |order|
  {
    if order != [] {
      if order[0] in marks {
        SearchComplete(g, order[1..], marks);
      } else {
        var r := VisitNode(g, marks, order[0]);
        VisitNodeComplete(g, marks, order[0]);
        VisitNodeNamesTargets(g, marks, order[0]);
        if r.found.None? {
          VisitNodeLeavesNoneOpen(g, marks, order[0]);
          SearchComplete(g, order[1..], r.marks);
        }
      }
    }
  }

  /** A visit that finds nothing leaves no node on the stack that was not there before. */
  lemma {:induction false} VisitNodeLeavesNoneOpen(g: Graph, marks: Marks, n: NodeId)
    requires n in Universe(g) && n !in marks && marks.Keys <= Universe(g) && NoEmptyTarget(g)
    ensures var r := VisitNode(g, marks, n);
            r.found.None? ==>
              forall k :: k in r.marks && r.marks[k] == OnStack ==> k in marks && marks[k] == OnStack && k != n
    decreases Unvisited(g, marks), 0
  {
    EnteringShrinks(g, marks, n);
    VisitFromLeavesNoneOpen(g, marks[n := OnStack], n, 0);
  }

  lemma {:induction false} VisitFromLeavesNoneOpen(g: Graph, marks: Marks, n: NodeId, i: nat)
    requires n in marks && i <= |Succ(g, n)| && marks.Keys <= Universe(g) && NoEmptyTarget(g)
    ensures var r := VisitFrom(g, marks, n, i);
            r.found.None? ==>
              forall k :: k in r.marks && r.marks[k] == OnStack ==> k in marks && marks[k] == OnStack && k != n
    decreases Unvisited(g, marks), 1 + |Succ(g, n)| - i
  {
    if i < |Succ(g, n)| {
      var next := Succ(g, n)[i];
      assert Next(g, n, next);
      if next !in marks {
        VisitNodeNamesTargets(g, marks, next);
        VisitNodeLeavesNoneOpen(g, marks, next);
        VisitFromLeavesNoneOpen(g, VisitNode(g, marks, next).marks, n, i + 1);
      } else if marks[next] == Explored {
        VisitFromLeavesNoneOpen(g, marks, n, i + 1);
      }
    }
  }

  /** `assertNoCycle` never throws for an acyclic graph. When no edge leads into an empty
      id it throws exactly for the cyclic ones, naming a node on a cycle. */
  lemma ThrowsExactlyOnCycles(g: Graph, order: seq<NodeId>)
    requires forall n :: n in order <==> n in g
    ensures Search(g, order, map[]).Some? ==> Cyclic(g)
    ensures NoEmptyTarget(g) ==>
              && (Search(g, order, map[]).Some? <==> Cyclic(g))
              && (Search(g, order, map[]).Some? ==> OnCycle(g, Search(g, order, map[]).value))
  {
    SearchSound(g, order, map[]);
    if NoEmptyTarget(g) {
      SearchComplete(g, order, map[]);
      if n :| OnCycle(g, n) {
        var w :| |w| > 1 && Connects(g, w, n, n);
        assert Next(g, w[0], w[1]);
      }
    }
  }

  /** Without that proviso a cycle can go unnoticed. */
  lemma EmptyIdHidesACycle()
    ensures var g: Graph := map["" := [""]];
            Cyclic(g) && Search(g, [""], map[]) == None
  {
    var g: Graph := map["" := [""]];
    assert Next(g, "", "");
    assert Connects(g, ["", ""], "", "");
    var marks: Marks := map["" := OnStack];
    assert VisitFrom(g, marks, "", 0) == Visit(marks, Some(""));
    assert OnCycle(g, "");
  }

  // ---------------------------------------------------------------- work

  /** An edge, by its source and its position among the source's edges. */
  type Scan = (NodeId, nat)

  predicate NoRepeats<T(==)>(s: seq<T>) {
    forall i, j :: 0 <= i < j < |s| ==> s[i] != s[j]
  }

  /** The edges `VisitFrom` follows, in order. */
  function Scans(g: Graph, marks: Marks, n: NodeId, i: nat): seq<Scan>
    requires n in marks && i <= |Succ(g, n)| && marks.Keys <= Universe(g)
    decreases Unvisited(g, marks), 1 + |Succ(g, n)| - i
  {
    if i == |Succ(g, n)| then []
    else
      var next := Succ(g, n)[i];
      [(n, i)] +
      if next !in marks then
        var inner := VisitNode(g, marks, next);
        Scans(g, marks[next := OnStack], next, 0)
        + if Truthy(inner.found) then [] else Scans(g, inner.marks, n, i + 1)
      else if marks[next] == OnStack then []
      else Scans(g, marks, n, i + 1)
  }

  function SearchScans(g: Graph, order: seq<NodeId>, marks: Marks): seq<Scan>
    requires marks.Keys <= Universe(g) && forall n :: n in order ==> n in g
  {
    if order == [] then []
    else if order[0] in marks then SearchScans(g, order[1..], marks)
    else
      var r := VisitNode(g, marks, order[0]);
      Scans(g, marks[order[0] := OnStack], order[0], 0)
      + if Truthy(r.found) then [] else SearchScans(g, order[1..], r.marks)
  }

  predicate IsEdge(g: Graph, p: Scan) {
    p.1 < |Succ(g, p.0)|
  }

  lemma NoRepeatsConcat<T>(a: seq<T>, b: seq<T>)
    requires NoRepeats(a) && NoRepeats(b) && forall x :: x in a ==> x !in b
    ensures NoRepeats(a + b)
  {
    forall i, j | 0 <= i < j < |a + b| ensures (a + b)[i] != (a + b)[j] {
      if i < |a| <= j {
        assert a[i] in a && b[j - |a|] in b;
      }
    }
  }

  /** From edge `i` of `n` on: the rest of `n`'s edges, and edges of nodes not seen before. */
  ghost predicate FreshScans(g: Graph, marks: Marks, later: Marks, n: NodeId, i: nat, scans: seq<Scan>) {
    && NoRepeats(scans)
    && forall p :: p in scans ==> IsEdge(g, p) && if p.0 == n then i <= p.1 else p.0 !in marks && p.0 in later
  }

  lemma FreshJoin(g: Graph, marks: Marks, mid: Marks, later: Marks, n: NodeId, i: nat, next: NodeId,
                  first: seq<Scan>, rest: seq<Scan>)
    requires n in marks && next !in marks && i < |Succ(g, n)|
    requires marks.Keys + {next} <= mid.Keys <= later.Keys
    requires FreshScans(g, marks[next := OnStack], mid, next, 0, first)
    requires FreshScans(g, mid, later, n, i + 1, rest)
    ensures FreshScans(g, marks, later, n, i, [(n, i)] + (first + rest))
  {
    NoRepeatsConcat(first, rest);
    NoRepeatsConcat([(n, i)], first + rest);
  }

  lemma {:induction false} ScansAreFresh(g: Graph, marks: Marks, n: NodeId, i: nat)
    requires n in marks && i <= |Succ(g, n)| && marks.Keys <= Universe(g)
    ensures FreshScans(g, marks, VisitFrom(g, marks, n, i).marks, n, i, Scans(g, marks, n, i))
    decreases Unvisited(g, marks), 1 + |Succ(g, n)| - i
  {
    if i < |Succ(g, n)| {
      var next := Succ(g, n)[i];
      if next !in marks {
        assert Next(g, n, next);
        var inner := VisitNode(g, marks, next);
        var first := Scans(g, marks[next := OnStack], next, 0);
        EnteringShrinks(g, marks, next);
        ScansAreFresh(g, marks[next := OnStack], next, 0);
        if Truthy(inner.found) {
          FreshJoin(g, marks, inner.marks, inner.marks, n, i, next, first, []);
        } else {
          ScansAreFresh(g, inner.marks, n, i + 1);
          FreshJoin(g, marks, inner.marks, VisitFrom(g, inner.marks, n, i + 1).marks, n, i, next,
                    first, Scans(g, inner.marks, n, i + 1));
        }
      } else if marks[next] == Explored {
        ScansAreFresh(g, marks, n, i + 1);
        NoRepeatsConcat([(n, i)], Scans(g, marks, n, i + 1));
      }
    }
  }

  /** The search enters a node only while it has no mark, and follows each edge at most once. */
  lemma {:induction false} EachEdgeOnce(g: Graph, order: seq<NodeId>, marks: Marks)
    requires marks.Keys <= Universe(g) && forall n :: n in order ==> n in g
    ensures NoRepeats(SearchScans(g, order, marks))
    ensures forall p :: p in SearchScans(g, order, marks) ==> IsEdge(g, p) && p.0 !in marks
  {
    if order != [] {
      if order[0] in marks {
        EachEdgeOnce(g, order[1..], marks);
      } else {
        var n := order[0];
        var r := VisitNode(g, marks, n);
        ScansAreFresh(g, marks[n := OnStack], n, 0);
        if !Truthy(r.found) {
          EachEdgeOnce(g, order[1..], r.marks);
          NoRepeatsConcat(Scans(g, marks[n := OnStack], n, 0), SearchScans(g, order[1..], r.marks));
        }
      }
    }
  }
}
