/** What holds of a recipient row in every interleaving whatsoever: no scheduling
    hypothesis, crashes, replays and late writes included. */
module CampaignDelivery {
  import opened Options
  import opened CampaignProtocol

  function Calling(k: Worker, r: RowId): nat {
    if k.phase == Send(r) then 1 else 0
  }

  /** Workers about to hand row `r` to the provider. */
  function Callers(ws: seq<Worker>, r: RowId): nat {
    if ws == [] then 0 else Callers(ws[..|ws| - 1], r) + Calling(ws[|ws| - 1], r)
  }

  lemma {:induction false} CallersUpdate(ws: seq<Worker>, w: nat, k: Worker, r: RowId)
    requires w < |ws|
    ensures Callers(ws[w := k], r) == Callers(ws, r) - Calling(ws[w], r) + Calling(k, r)
  {
    var n := |ws| - 1;
    if w == n {
      assert ws[w := k][..n] == ws[..n];
    } else {
      assert ws[w := k][..n] == ws[..n][w := k];
      CallersUpdate(ws[..n], w, k, r);
    }
  }

  lemma CallersAppend(ws: seq<Worker>, k: Worker, r: RowId)
    ensures Callers(ws + [k], r) == Callers(ws, r) + Calling(k, r)
  {
    assert (ws + [k])[..|ws|] == ws;
  }

  function Waiting(s: State, r: RowId): nat {
    if r in s.rows && s.rows[r].status == Pending then 1 else 0
  }

  ghost predicate RowOk(s: State, r: RowId)
    requires r in s.past
  {
    && r < s.nextId
    && s.past[r].sends + Callers(s.workers, r) <= s.past[r].claims
    && s.past[r].claims + Waiting(s, r) <= 1 + s.past[r].putBacks
    && (r in s.rows ==> s.rows[r].attempts == s.past[r].claims)
    && (r in s.rows && !s.past[r].bornSkipped ==> HasDestination(s.rows[r]))
    && (s.past[r].bornSkipped ==> s.past[r].claims == 0 && (r in s.rows ==> s.rows[r].status == Skipped))
  }

  ghost predicate Inv(s: State) {
    && (forall r :: r in s.rows ==> r in s.past)
    && (forall r :: r in s.past ==> RowOk(s, r))
    && HoldersOk(s)
  }

  /** No worker holds a row that was born skipped. */
  ghost predicate HoldersOk(s: State) {
    forall w :: 0 <= w < |s.workers| && s.workers[w].Held().Some?
      ==> var r := s.workers[w].Held().value; r in s.past && !s.past[r].bornSkipped
  }

  /** The same workers, and every row born as it was. */
  lemma SameHolders(s: State, t: State)
    requires HoldersOk(s) && t.workers == s.workers
    requires forall r :: r in s.past ==> r in t.past && t.past[r].bornSkipped == s.past[r].bornSkipped
    ensures HoldersOk(t)
  {
  }

  lemma ApiKeepsRow(s: State, a: ApiOp, r: RowId)
    requires CanApi(s, a) && r in s.past && RowOk(s, r)
    ensures r in ApiStep(s, a).past && RowOk(ApiStep(s, a), r)
  {
    match a
    case Cancel =>
    case Retry =>
    case _ =>
  }

  lemma ApiKeeps(s: State, a: ApiOp)
    requires Inv(s) && CanApi(s, a)
    ensures Inv(ApiStep(s, a))
  {
    var t := ApiStep(s, a);
    assert t.rows.Keys == s.rows.Keys && t.past.Keys == s.past.Keys && t.workers == s.workers;
    SameHolders(s, t);
    forall r | r in t.past ensures RowOk(t, r) {
      ApiKeepsRow(s, a, r);
    }
  }

  lemma DispatchKeepsRow(s: State, d: nat, o: DispatchOp, r: RowId)
    requires CanDispatch(s, d, o) && r in s.past && RowOk(s, r)
    ensures r in DispatchStep(s, d, o).past && RowOk(DispatchStep(s, d, o), r)
  {
    match o
    case Upsert(_) =>
    case Recover(_) =>
    case _ =>
  }

  lemma DispatchKeepsHolders(s: State, d: nat, o: DispatchOp)
    requires Inv(s) && CanDispatch(s, d, o)
    ensures HoldersOk(DispatchStep(s, d, o))
  {
    var t := DispatchStep(s, d, o);
    forall r | r in s.past ensures r < s.nextId {
      assert RowOk(s, r);
    }
    SameHolders(s, t);
  }

  lemma DispatchKeeps(s: State, d: nat, o: DispatchOp)
    requires Inv(s) && CanDispatch(s, d, o)
    ensures Inv(DispatchStep(s, d, o))
  {
    var t := DispatchStep(s, d, o);
    DispatchKeepsHolders(s, d, o);
    assert forall r :: r in t.rows ==> r in t.past;
    forall r | r in t.past ensures RowOk(t, r) {
      if r in s.past {
        DispatchKeepsRow(s, d, o, r);
      } else {
        assert o.Upsert? && r == s.nextId;
        NoCaller(s.workers, r);
      }
    }
  }

  lemma {:induction false} NoCaller(ws: seq<Worker>, r: RowId)
    requires forall w :: 0 <= w < |ws| ==> ws[w].Held() != Some(r)
    ensures Callers(ws, r) == 0
  {
    if ws != [] {
      NoCaller(ws[..|ws| - 1], r);
      assert ws[|ws| - 1].Held() != Some(r);
    }
  }

  lemma ClaimKeepsRow(s: State, w: nat, r: RowId)
    requires Inv(s) && CanWork(s, w, TryClaim) && r in s.past
    ensures var t := ClaimStep(s, w); r in t.past && RowOk(t, r)
  {
    var t := ClaimStep(s, w);
    assert RowOk(s, r);
    CallersUpdate(s.workers, w, t.workers[w], r);
  }

  lemma WriteKeepsRow(s: State, w: nat, fault: bool, r: RowId)
    requires Inv(s) && CanWork(s, w, WriteOutcome(fault)) && r in s.past
    ensures var t := WriteStep(s, w, fault); r in t.past && RowOk(t, r)
  {
    var t := WriteStep(s, w, fault);
    assert RowOk(s, r);
    assert t.workers == s.workers[w := t.workers[w]];
    CallersUpdate(s.workers, w, t.workers[w], r);
  }

  lemma WorkKeepsRow(s: State, w: nat, o: WorkOp, r: RowId)
    requires Inv(s) && CanWork(s, w, o) && r in s.past
    ensures var t := WorkStep(s, w, o); r in t.past && RowOk(t, r)
  {
    if o.TryClaim? {
      ClaimKeepsRow(s, w, r);
    } else if o.WriteOutcome? {
      WriteKeepsRow(s, w, o.fault, r);
    } else {
      CallersUpdate(s.workers, w, WorkStep(s, w, o).workers[w], r);
    }
  }

  lemma BirthStays(s: State, w: nat, o: WorkOp, r: RowId)
    requires CanWork(s, w, o) && r in s.past
    ensures var t := WorkStep(s, w, o); r in t.past && t.past[r].bornSkipped == s.past[r].bornSkipped
  {
    if o.TryClaim? {
    } else if o.WriteOutcome? {
    } else {
    }
  }

  /** What the worker holds after its step was not born skipped. */
  lemma HolderStaysOk(s: State, w: nat, o: WorkOp)
    requires Inv(s) && CanWork(s, w, o) && w < |WorkStep(s, w, o).workers|
    requires WorkStep(s, w, o).workers[w].Held().Some?
    ensures var r := WorkStep(s, w, o).workers[w].Held().value; r in s.past && !s.past[r].bornSkipped
  {
    if o == TryClaim {
      var r := s.workers[w].ids[s.workers[w].index];
      assert r in s.rows;
      assert RowOk(s, r);
    }
  }

  lemma WorkKeepsHolders(s: State, w: nat, o: WorkOp)
    requires Inv(s) && CanWork(s, w, o)
    ensures var t := WorkStep(s, w, o);
            forall v :: 0 <= v < |t.workers| && t.workers[v].Held().Some?
              ==> var r := t.workers[v].Held().value; r in t.past && !t.past[r].bornSkipped
  {
    var t := WorkStep(s, w, o);
    WorkMovesOne(s, w, o);
    forall v | 0 <= v < |t.workers| && t.workers[v].Held().Some?
      ensures var r := t.workers[v].Held().value; r in t.past && !t.past[r].bornSkipped
    {
      if v == w {
        HolderStaysOk(s, w, o);
      } else {
        assert t.workers[v] == s.workers[v];
      }
      BirthStays(s, w, o, t.workers[v].Held().value);
    }
  }

  lemma WorkKeeps(s: State, w: nat, o: WorkOp)
    requires Inv(s) && CanWork(s, w, o)
    ensures Inv(WorkStep(s, w, o))
  {
    WorkKeepsHolders(s, w, o);
    WorkMovesOne(s, w, o);
    var t := WorkStep(s, w, o);
    forall r | r in t.past ensures RowOk(t, r) {
      WorkKeepsRow(s, w, o, r);
    }
  }

  lemma StartBatchKeepsRow(s: State, ids: seq<RowId>, replay: bool, r: RowId)
    requires Can(s, StartBatch(ids, replay)) && r in s.past && RowOk(s, r)
    ensures RowOk(Step(s, StartBatch(ids, replay)), r)
  {
    CallersAppend(s.workers, Worker(ids, 0, Check, 0, 0), r);
  }

  lemma StartBatchKeepsHolders(s: State, ids: seq<RowId>, replay: bool)
    requires HoldersOk(s) && Can(s, StartBatch(ids, replay))
    ensures HoldersOk(Step(s, StartBatch(ids, replay)))
  {
  }

  lemma StartBatchKeeps(s: State, ids: seq<RowId>, replay: bool)
    requires Inv(s) && Can(s, StartBatch(ids, replay))
    ensures Inv(Step(s, StartBatch(ids, replay)))
  {
    StartBatchKeepsHolders(s, ids, replay);
    forall r | r in s.past ensures RowOk(Step(s, StartBatch(ids, replay)), r) {
      StartBatchKeepsRow(s, ids, replay, r);
    }
  }

  lemma QueueStepKeeps(s: State, op: Op)
    requires Inv(s) && Can(s, op) && (op.StartDispatch? || op.DropDispatch? || op.DropBatch?)
    ensures Inv(Step(s, op))
  {
    var t := Step(s, op);
    forall r | r in t.past ensures RowOk(t, r) {
      assert RowOk(s, r);
    }
  }

  lemma StepKeeps(s: State, op: Op)
    requires Inv(s) && Can(s, op)
    ensures Inv(Step(s, op))
  {
    match op
    case Api(a) => ApiKeeps(s, a);
    case Dispatch(d, o) => DispatchKeeps(s, d, o);
    case Work(w, o) => WorkKeeps(s, w, o);
    case StartBatch(ids, replay) => StartBatchKeeps(s, ids, replay);
    case _ => QueueStepKeeps(s, op);
  }

  lemma InitOk()
    ensures Inv(INIT)
  {
  }

  lemma {:induction false} InvAlways(tr: seq<State>, ops: seq<Op>, i: nat)
    requires Behaviour(tr, ops) && i < |tr|
    ensures Inv(tr[i])
  {
    if i > 0 {
      InvAlways(tr, ops, i - 1);
      StepKeeps(tr[i - 1], ops[i - 1]);
    }
  }

  /** For every row in every interleaving, the provider is called at most `attempts`
      times, and `attempts` exceeds the number of times the row was put back to
      `pending` by at most one. */
  lemma DeliveryBound(tr: seq<State>, ops: seq<Op>, i: nat, r: RowId)
    requires Behaviour(tr, ops) && i < |tr| && r in tr[i].rows
    ensures r in tr[i].past
    ensures tr[i].past[r].sends <= tr[i].rows[r].attempts <= 1 + tr[i].past[r].putBacks
  {
    InvAlways(tr, ops, i);
    assert RowOk(tr[i], r);
  }

  /** A row whose claim was never undone is handed to the provider at most once. */
  lemma AtMostOnceUnlessPutBack(tr: seq<State>, ops: seq<Op>, i: nat, r: RowId)
    requires Behaviour(tr, ops) && i < |tr| && r in tr[i].past && tr[i].past[r].putBacks == 0
    ensures tr[i].past[r].sends <= 1
  {
    InvAlways(tr, ops, i);
    assert RowOk(tr[i], r);
  }

  /** A row materialised as `skipped` stays so: never claimed, held or sent again,
      whatever is retried, resumed, cancelled, recovered or written late. */
  lemma SkipIsPermanent(tr: seq<State>, ops: seq<Op>, i: nat, r: RowId)
    requires Behaviour(tr, ops) && i < |tr| && r in tr[i].past && tr[i].past[r].bornSkipped
    ensures tr[i].past[r].claims == 0 && tr[i].past[r].sends == 0
    ensures r in tr[i].rows ==> tr[i].rows[r].status == Skipped
    ensures !Holds(tr[i], r)
  {
    InvAlways(tr, ops, i);
    assert RowOk(tr[i], r);
  }

  /** The claim never picks a row it then cannot address, so the `continue` after the
      claim only ever passes over rows the claim did not take. */
  lemma ClaimIsNeverStranded(tr: seq<State>, ops: seq<Op>, i: nat, w: nat)
    requires Behaviour(tr, ops) && i < |tr| && CanWork(tr[i], w, TryClaim)
    ensures var k := tr[i].workers[w];
            var r := k.ids[k.index];
            if r in tr[i].rows && tr[i].rows[r].status == Pending
            then WorkStep(tr[i], w, TryClaim).workers[w].phase == Send(r)
            else WorkStep(tr[i], w, TryClaim).rows == tr[i].rows
  {
    InvAlways(tr, ops, i);
    var k := tr[i].workers[w];
    var r := k.ids[k.index];
    if r in tr[i].rows {
      assert RowOk(tr[i], r);
    }
  }

  // ---------------------------------------------------------------- pause latency

  function Counts(op: Op, w: nat): nat {
    if op.Work? && op.w == w && op.wop.CallProvider? then 1 else 0
  }

  /** Provider calls worker `w` makes in steps `i` up to `j`. */
  function CallsBetween(ops: seq<Op>, i: nat, j: nat, w: nat): nat
    requires i <= j <= |ops|
  {
    if i == j then 0 else CallsBetween(ops, i, j - 1, w) + Counts(ops[j - 1], w)
  }

  /** Calls a worker can still make before its next pause check. */
  function Budget(k: Worker): nat {
    var sinceCheck := k.index % PAUSE_CHECK_INTERVAL;
    match k.phase
    case Check => if k.index > 0 && sinceCheck == 0 then 0 else PAUSE_CHECK_INTERVAL - sinceCheck
    case Claim => PAUSE_CHECK_INTERVAL - sinceCheck
    case Send(_) => PAUSE_CHECK_INTERVAL - sinceCheck
    case WriteSent(_) => PAUSE_CHECK_INTERVAL - sinceCheck - 1
    case WriteFailed(_) => PAUSE_CHECK_INTERVAL - sinceCheck - 1
    case _ => 0
  }

  lemma NextWithinBudget(k: Worker)
    ensures Budget(k.Next()) == PAUSE_CHECK_INTERVAL - k.index % PAUSE_CHECK_INTERVAL - 1
  {
    var q, m := k.index / PAUSE_CHECK_INTERVAL, k.index % PAUSE_CHECK_INTERVAL;
    assert k.index == q * PAUSE_CHECK_INTERVAL + m;
    if m + 1 < PAUSE_CHECK_INTERVAL {
      assert (k.index + 1) % PAUSE_CHECK_INTERVAL == m + 1;
    } else {
      assert k.index + 1 == (q + 1) * PAUSE_CHECK_INTERVAL;
      assert (k.index + 1) % PAUSE_CHECK_INTERVAL == 0;
    }
  }

  lemma WorkBudget(s: State, w: nat, o: WorkOp)
    requires CanWork(s, w, o) && s.status != Sending
    ensures w < |WorkStep(s, w, o).workers|
    ensures Counts(Work(w, o), w) + Budget(WorkStep(s, w, o).workers[w]) <= Budget(s.workers[w])
  {
    NextWithinBudget(s.workers[w]);
    var k := s.workers[w];
    match o
    case TryClaim => assert WorkStep(s, w, o).workers[w] in {k.Next(), k.(phase := Send(k.ids[k.index]))};
    case WriteOutcome(_) =>
    case Look =>
    case _ =>
  }

  lemma BudgetStep(s: State, op: Op, w: nat)
    requires Can(s, op) && s.status != Sending && w < |s.workers|
    ensures |Step(s, op).workers| == |s.workers|
    ensures Counts(op, w) + Budget(Step(s, op).workers[w]) <= Budget(s.workers[w])
  {
    if op.Work? {
      WorkMovesOne(s, op.w, op.wop);
      if op.w == w {
        WorkBudget(s, w, op.wop);
      }
    }
  }

  /** Step `m` of a run starts no batch and pays for each call from the worker's budget. */
  ghost predicate Pays(tr: seq<State>, ops: seq<Op>, m: nat, w: nat)
    requires m < |ops| && |tr| == |ops| + 1
  {
    && |tr[m + 1].workers| == |tr[m].workers|
    && (w < |tr[m].workers| ==> Counts(ops[m], w) + Budget(tr[m + 1].workers[w]) <= Budget(tr[m].workers[w]))
  }

  lemma PaysWhileStopped(tr: seq<State>, ops: seq<Op>, m: nat, w: nat)
    requires Behaviour(tr, ops) && m < |ops| && tr[m].status != Sending && w < |tr[m].workers|
    ensures Pays(tr, ops, m, w)
  {
    BudgetStep(tr[m], ops[m], w);
  }

  lemma {:induction false} BudgetSpent(tr: seq<State>, ops: seq<Op>, i: nat, j: nat, w: nat)
    requires |tr| == |ops| + 1 && i <= j < |tr| && w < |tr[i].workers|
    requires forall m {:trigger Pays(tr, ops, m, w)} :: i <= m < j && w < |tr[m].workers| ==> Pays(tr, ops, m, w)
    ensures |tr[j].workers| == |tr[i].workers|
    ensures CallsBetween(ops, i, j, w) + Budget(tr[j].workers[w]) <= Budget(tr[i].workers[w])
  {
    if i < j {
      BudgetSpent(tr, ops, i, j - 1, w);
      assert Pays(tr, ops, j - 1, w);
    }
  }

  /** Once the campaign has left `sending` and stays out, a batch in flight makes at
      most 20 further provider calls, and no batch starts. */
  lemma {:induction false} PauseLatency(tr: seq<State>, ops: seq<Op>, i: nat, j: nat, w: nat)
    requires Behaviour(tr, ops) && i <= j < |tr|
    requires forall m :: i <= m < j ==> tr[m].status != Sending
    requires w < |tr[i].workers|
    ensures |tr[j].workers| == |tr[i].workers|
    ensures CallsBetween(ops, i, j, w) <= PAUSE_CHECK_INTERVAL
  {
    forall m | i <= m < j && w < |tr[m].workers| ensures Pays(tr, ops, m, w) {
      PaysWhileStopped(tr, ops, m, w);
    }
    BudgetSpent(tr, ops, i, j, w);
  }
}
