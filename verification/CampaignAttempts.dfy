/** How a worker goes through its batch, in every interleaving: each row is tried once, in
    order, and it stops short of the end only for a reason. */
module CampaignAttempts {
  import opened Options
  import opened CampaignProtocol

  /** How far a worker has come, in thirds of a row: before the row, at its claim, past it. */
  function Progress(k: Worker): nat {
    3 * k.index + match k.phase case Check => 0 case Claim => 1 case _ => 2
  }

  lemma OwnStepProgresses(s: State, w: nat, o: WorkOp)
    requires CanWork(s, w, o)
    ensures w < |WorkStep(s, w, o).workers| && WorkStep(s, w, o).workers[w].ids == s.workers[w].ids
    ensures Progress(s.workers[w]) + (if o == TryClaim then 1 else 0) <= Progress(WorkStep(s, w, o).workers[w])
  {
    match o
    case TryClaim =>
    case WriteOutcome(_) =>
    case _ =>
  }

  lemma StepProgresses(s: State, op: Op, w: nat)
    requires Can(s, op) && w < |s.workers|
    ensures w < |Step(s, op).workers| && Step(s, op).workers[w].ids == s.workers[w].ids
    ensures Progress(s.workers[w]) + (if op == Work(w, TryClaim) then 1 else 0) <= Progress(Step(s, op).workers[w])
    ensures !(op.Work? && op.w == w) ==> Step(s, op).workers[w] == s.workers[w]
  {
    if op.Work? {
      WorkMovesOne(s, op.w, op.wop);
      if op.w == w {
        OwnStepProgresses(s, w, op.wop);
      }
    }
  }

  lemma {:induction false} Progresses(tr: seq<State>, ops: seq<Op>, i: nat, j: nat, w: nat)
    requires Behaviour(tr, ops) && i <= j < |tr| && w < |tr[i].workers|
    ensures w < |tr[j].workers| && tr[j].workers[w].ids == tr[i].workers[w].ids
    ensures Progress(tr[i].workers[w]) <= Progress(tr[j].workers[w])
  {
    if i < j {
      Progresses(tr, ops, i, j - 1, w);
      StepProgresses(tr[j - 1], ops[j - 1], w);
    }
  }

  /** At step `m` worker `w` tries to claim the `q`-th row of its batch. */
  predicate TriesAt(tr: seq<State>, ops: seq<Op>, m: nat, w: nat, q: nat) {
    && m < |ops| && |tr| == |ops| + 1 && ops[m] == Work(w, TryClaim)
    && w < |tr[m].workers| && tr[m].workers[w].index == q
  }

  ghost predicate Tried(tr: seq<State>, ops: seq<Op>, w: nat, q: nat) {
    exists m :: TriesAt(tr, ops, m, w, q)
  }

  /** No row is tried twice, and none before the row that comes before it. */
  lemma TriedInOrder(tr: seq<State>, ops: seq<Op>, m: nat, n: nat, w: nat, q: nat, p: nat)
    requires Behaviour(tr, ops) && TriesAt(tr, ops, m, w, q) && TriesAt(tr, ops, n, w, p)
    ensures q == p <==> m == n
    ensures q < p ==> m < n
  {
    assert Can(tr[m], ops[m]) && Can(tr[n], ops[n]);
    StepProgresses(tr[m], ops[m], w);
    StepProgresses(tr[n], ops[n], w);
    if m < n {
      Progresses(tr, ops, m + 1, n, w);
    } else if n < m {
      Progresses(tr, ops, n + 1, m, w);
    }
  }

  /** The rows a worker has got past, and the one it holds. */
  predicate Behind(k: Worker, q: nat) {
    q < k.index || (q == k.index && k.Held().Some?)
  }

  lemma OwnStepLeavesBehind(s: State, w: nat, o: WorkOp, q: nat)
    requires CanWork(s, w, o) && w < |WorkStep(s, w, o).workers|
    requires Behind(WorkStep(s, w, o).workers[w], q) && !Behind(s.workers[w], q)
    ensures o == TryClaim && s.workers[w].index == q
  {
    match o
    case TryClaim =>
    case WriteOutcome(_) =>
    case _ =>
  }

  lemma NewlyBehind(s: State, op: Op, w: nat, q: nat)
    requires Can(s, op) && w < |s.workers| && w < |Step(s, op).workers|
    requires Behind(Step(s, op).workers[w], q) && !Behind(s.workers[w], q)
    ensures op == Work(w, TryClaim) && s.workers[w].index == q
  {
    StepProgresses(s, op, w);
    if op.Work? && op.w == w {
      OwnStepLeavesBehind(s, w, op.wop, q);
    }
  }

  lemma NewWorkerHasNothingBehind(s: State, op: Op, w: nat)
    requires Can(s, op) && |s.workers| <= w < |Step(s, op).workers|
    ensures op.StartBatch? && w == |s.workers| && Step(s, op).workers[w] == Worker(op.ids, 0, Check, 0, 0)
  {
    if op.Work? {
      WorkMovesOne(s, op.w, op.wop);
    }
  }

  /** Every row a worker has got past was tried. */
  lemma {:induction false} EveryRowPassedWasTried(tr: seq<State>, ops: seq<Op>, i: nat, w: nat, q: nat) returns (m: nat)
    requires Behaviour(tr, ops) && i < |tr| && w < |tr[i].workers| && Behind(tr[i].workers[w], q)
    ensures m < i && TriesAt(tr, ops, m, w, q)
  {
    var s, op := tr[i - 1], ops[i - 1];
    if w >= |s.workers| {
      NewWorkerHasNothingBehind(s, op, w);
    }
    if Behind(s.workers[w], q) {
      m := EveryRowPassedWasTried(tr, ops, i - 1, w, q);
    } else {
      NewlyBehind(s, op, w, q);
      m := i - 1;
    }
  }
}
