/** No work is lost, in any interleaving: while a campaign is `sending`, every pending row is owed to it by
    some job or worker, and when nothing is left in flight it is no longer `sending`. */
module CampaignProgress {
  import opened Options
  import opened CampaignProtocol
  import Delivery = CampaignDelivery

  predicate DispatcherOwes(d: Dispatcher, r: RowId) {
    match d
    case Idle => false
    case Queueing(from, _) => from <= r
    case _ => true
  }

  /** A worker owes the rest of its batch; one that is about to pause the campaign owes
      everything, because the resume that must follow queues it all again. */
  predicate WorkerOwes(k: Worker, r: RowId) {
    match k.phase
    case PutBack(_) => true
    case Abort(_) => true
    case Commit(_) => false
    case Finalise => false
    case Done => false
    case _ => k.index <= |k.ids| && r in k.ids[k.index..]
  }

  ghost predicate Owed(s: State, r: RowId) {
    || s.dispatchDue > 0
    || (exists d :: 0 <= d < |s.dispatchers| && DispatcherOwes(s.dispatchers[d], r))
    || (exists ids :: ids in s.jobs && r in ids)
    || (exists w :: 0 <= w < |s.workers| && WorkerOwes(s.workers[w], r))
  }

  /** The worker's claim is on the row its loop stands at. */
  predicate InStep(k: Worker) {
    && k.index <= |k.ids|
    && (k.phase == Claim ==> k.index < |k.ids|)
    && (k.Held().Some? ==> k.index < |k.ids| && k.Held().value == k.ids[k.index])
  }

  ghost predicate NoneStranded(s: State) {
    && (s.status == Sending ==> forall r :: r in s.rows && s.rows[r].status == Pending ==> Owed(s, r))
    && (forall r :: r in s.rows && s.rows[r].status == Claimed ==> Holds(s, r))
    && AllInStep(s)
  }

  ghost predicate AllInStep(s: State) {
    forall w :: 0 <= w < |s.workers| ==> InStep(s.workers[w])
  }

  predicate WillFinalise(d: Dispatcher) {
    d != Idle && !(d.Queueing? && d.queued > 0)
  }

  predicate WorkerWillFinalise(k: Worker) {
    k.phase != Done && k.phase != Commit(false)
  }

  /** Someone is still going to check whether the campaign is done, or to stop it. */
  ghost predicate Finaliser(s: State) {
    || s.dispatchDue > 0
    || s.jobs != multiset{}
    || (exists d :: 0 <= d < |s.dispatchers| && WillFinalise(s.dispatchers[d]))
    || (exists w :: 0 <= w < |s.workers| && WorkerWillFinalise(s.workers[w]))
  }

  ghost predicate WillEnd(s: State) {
    s.status == Sending ==> Unfinished(s.rows) != {} || Finaliser(s)
  }

  ghost predicate Inv(s: State) {
    Delivery.Inv(s) && NoneStranded(s) && WillEnd(s)
  }

  // ---------------------------------------------------------------- requests and dispatch

  lemma ApiKeeps(s: State, a: ApiOp)
    requires NoneStranded(s) && WillEnd(s) && CanApi(s, a)
    ensures NoneStranded(ApiStep(s, a)) && WillEnd(ApiStep(s, a))
  {
    var t := ApiStep(s, a);
    forall r | r in t.rows && t.rows[r].status == Claimed ensures Holds(t, r) {
      assert Holds(s, r);
    }
  }

  /** Replacing one dispatcher leaves what the others, the jobs and the workers owe. */
  lemma DispatcherSwap(s: State, t: State, d: nat, r: RowId)
    requires d < |s.dispatchers| && |t.dispatchers| == |s.dispatchers| && t.workers == s.workers
    requires t.dispatchers == s.dispatchers[d := t.dispatchers[d]]
    requires s.jobs <= t.jobs && t.dispatchDue == s.dispatchDue
    requires Owed(s, r) && (DispatcherOwes(s.dispatchers[d], r) ==> Owed(t, r))
    ensures Owed(t, r)
  {
    if e :| 0 <= e < |s.dispatchers| && e != d && DispatcherOwes(s.dispatchers[e], r) {
      assert DispatcherOwes(t.dispatchers[e], r);
    } else if w :| 0 <= w < |s.workers| && WorkerOwes(s.workers[w], r) {
      assert WorkerOwes(t.workers[w], r);
    }
  }

  lemma DispatchKeepsClaims(s: State, d: nat, o: DispatchOp, r: RowId)
    requires NoneStranded(s) && CanDispatch(s, d, o)
    requires r in DispatchStep(s, d, o).rows && DispatchStep(s, d, o).rows[r].status == Claimed
    ensures Holds(DispatchStep(s, d, o), r)
  {
    assert r in s.rows && s.rows[r].status == Claimed;
    assert Holds(s, r);
    assert DispatchStep(s, d, o).workers == s.workers;
  }

  lemma DispatchKeepsOwed(s: State, d: nat, o: DispatchOp, r: RowId)
    requires NoneStranded(s) && CanDispatch(s, d, o) && Smooth(s, Dispatch(d, o))
    requires var t := DispatchStep(s, d, o); t.status == Sending && r in t.rows && t.rows[r].status == Pending
    ensures Owed(DispatchStep(s, d, o), r)
  {
    var t := DispatchStep(s, d, o);
    if DispatcherOwes(t.dispatchers[d], r) {
      return;
    }
    match o
    case Enqueue(ids) =>
      if s.dispatchers[d].from <= r {
        assert ids in t.jobs && r in ids;
      }
      DispatcherSwap(s, t, d, r);
    case Finish =>
      DispatcherSwap(s, t, d, r);
    case PauseRun =>
  }

  lemma FinishKeepsEnd(s: State, d: nat)
    requires WillEnd(s) && CanDispatch(s, d, Finish)
    ensures WillEnd(DispatchStep(s, d, Finish))
  {
    var t := DispatchStep(s, d, Finish);
    if t.status == Sending && Unfinished(s.rows) == {} {
      assert s.dispatchers[d].queued > 0 && Finaliser(s);
      if e :| 0 <= e < |s.dispatchers| && WillFinalise(s.dispatchers[e]) {
        assert WillFinalise(t.dispatchers[e]);
      } else if w :| 0 <= w < |s.workers| && WorkerWillFinalise(s.workers[w]) {
        assert WorkerWillFinalise(t.workers[w]);
      }
    }
  }

  lemma EnqueueKeepsEnd(s: State, d: nat, ids: seq<RowId>)
    requires CanDispatch(s, d, Enqueue(ids))
    ensures WillEnd(DispatchStep(s, d, Enqueue(ids)))
  {
    assert ids in DispatchStep(s, d, Enqueue(ids)).jobs;
  }

  lemma DispatchKeepsEnd(s: State, d: nat, o: DispatchOp)
    requires WillEnd(s) && CanDispatch(s, d, o) && Smooth(s, Dispatch(d, o))
    ensures WillEnd(DispatchStep(s, d, o))
  {
    if o.Enqueue? {
      EnqueueKeepsEnd(s, d, o.ids);
    } else if o.Finish? {
      FinishKeepsEnd(s, d);
    } else if !o.PauseRun? && !o.DispatchCrash? {
      assert WillFinalise(DispatchStep(s, d, o).dispatchers[d]);
    }
  }

  lemma DispatchKeeps(s: State, d: nat, o: DispatchOp)
    requires Inv(s) && CanDispatch(s, d, o) && Smooth(s, Dispatch(d, o))
    ensures NoneStranded(DispatchStep(s, d, o)) && WillEnd(DispatchStep(s, d, o))
  {
    var t := DispatchStep(s, d, o);
    DispatchKeepsEnd(s, d, o);
    forall r | r in t.rows && t.rows[r].status == Claimed ensures Holds(t, r) {
      DispatchKeepsClaims(s, d, o, r);
    }
    if t.status == Sending {
      forall r | r in t.rows && t.rows[r].status == Pending ensures Owed(t, r) {
        DispatchKeepsOwed(s, d, o, r);
      }
    }
  }

  // ---------------------------------------------------------------- batches

  lemma StartKeepsOwed(s: State, ids: seq<RowId>, replay: bool, r: RowId)
    requires Can(s, StartBatch(ids, replay)) && Owed(s, r)
    ensures Owed(Step(s, StartBatch(ids, replay)), r)
  {
    var t := Step(s, StartBatch(ids, replay));
    var me := Worker(ids, 0, Check, 0, 0);
    if d :| 0 <= d < |s.dispatchers| && DispatcherOwes(s.dispatchers[d], r) {
      assert DispatcherOwes(t.dispatchers[d], r);
    } else if w :| 0 <= w < |s.workers| && WorkerOwes(s.workers[w], r) {
      assert WorkerOwes(t.workers[w], r);
    } else if job :| job in s.jobs && r in job {
      if job == ids {
        assert ids[0..] == ids;
        assert t.workers[|s.workers|] == me && WorkerOwes(me, r);
      } else {
        assert job in t.jobs;
      }
    }
  }

  lemma StartKeeps(s: State, ids: seq<RowId>, replay: bool)
    requires NoneStranded(s) && Can(s, StartBatch(ids, replay))
    ensures NoneStranded(Step(s, StartBatch(ids, replay))) && WillEnd(Step(s, StartBatch(ids, replay)))
  {
    var t := Step(s, StartBatch(ids, replay));
    forall r | r in t.rows && t.rows[r].status == Pending ensures Owed(t, r) {
      StartKeepsOwed(s, ids, replay, r);
    }
    forall r | r in t.rows && t.rows[r].status == Claimed ensures Holds(t, r) {
      assert Holds(s, r);
      var w :| 0 <= w < |s.workers| && s.workers[w].Held() == Some(r);
      assert t.workers[w].Held() == Some(r);
    }
    assert WorkerWillFinalise(t.workers[|s.workers|]);
  }

  // ---------------------------------------------------------------- send workers

  lemma WorkerSwap(s: State, t: State, w: nat, r: RowId)
    requires w < |s.workers| && |t.workers| == |s.workers| && t.workers == s.workers[w := t.workers[w]]
    requires t.dispatchers == s.dispatchers && t.jobs == s.jobs && t.dispatchDue == s.dispatchDue
    requires Owed(s, r) && (WorkerOwes(s.workers[w], r) ==> WorkerOwes(t.workers[w], r))
    ensures Owed(t, r)
  {
    if d :| 0 <= d < |s.dispatchers| && DispatcherOwes(s.dispatchers[d], r) {
      assert DispatcherOwes(t.dispatchers[d], r);
    } else if v :| 0 <= v < |s.workers| && WorkerOwes(s.workers[v], r) {
      assert WorkerOwes(t.workers[v], r);
    }
  }

  lemma RestOf(ids: seq<RowId>, i: nat, r: RowId)
    requires i < |ids| && r in ids[i..] && r != ids[i]
    ensures r in ids[i + 1..]
  {
    assert ids[i..] == [ids[i]] + ids[i + 1..];
  }

  /** What a worker passes over it does not owe any more. */
  lemma WorkKeepsDebt(s: State, w: nat, o: WorkOp, r: RowId)
    requires CanWork(s, w, o) && Smooth(s, Work(w, o)) && InStep(s.workers[w])
    requires var t := WorkStep(s, w, o); t.status == Sending && r in t.rows && t.rows[r].status == Pending
    requires WorkerOwes(s.workers[w], r)
    ensures WorkerOwes(WorkStep(s, w, o).workers[w], r)
  {
    var k := s.workers[w];
    match o
    case TryClaim => RestOf(k.ids, k.index, r);
    case WriteOutcome(fault) =>
      if !fault && !k.phase.PutBack? {
        RestOf(k.ids, k.index, r);
      }
    case _ =>
  }

  lemma WorkKeepsOwed(s: State, w: nat, o: WorkOp, r: RowId)
    requires NoneStranded(s) && CanWork(s, w, o) && Smooth(s, Work(w, o))
    requires var t := WorkStep(s, w, o); t.status == Sending && r in t.rows && t.rows[r].status == Pending
    ensures Owed(WorkStep(s, w, o), r)
  {
    var t := WorkStep(s, w, o);
    WorkMovesOne(s, w, o);
    if WorkerOwes(s.workers[w], r) {
      WorkKeepsDebt(s, w, o, r);
    }
    if s.rows[r].status == Pending {
      WorkerSwap(s, t, w, r);
    } else {
      assert WorkerOwes(t.workers[w], r);
    }
  }

  lemma TakingIsHolding(s: State, w: nat, o: WorkOp, r: RowId)
    requires Delivery.Inv(s) && CanWork(s, w, o) && r in s.rows && s.rows[r].status != Claimed
    requires r in WorkStep(s, w, o).rows && WorkStep(s, w, o).rows[r].status == Claimed
    ensures WorkStep(s, w, o).workers[w].Held() == Some(r)
  {
    assert Delivery.RowOk(s, r);
  }

  /** A step that leaves a claimed row claimed leaves its holder holding it. */
  lemma HoldingGoesOn(s: State, w: nat, o: WorkOp, r: RowId)
    requires CanWork(s, w, o) && Smooth(s, Work(w, o)) && s.workers[w].Held() == Some(r)
    requires r in s.rows && r in WorkStep(s, w, o).rows && WorkStep(s, w, o).rows[r].status == Claimed
    ensures WorkStep(s, w, o).workers[w].Held() == Some(r)
  {
  }

  lemma WorkKeepsClaims(s: State, w: nat, o: WorkOp, r: RowId)
    requires Delivery.Inv(s) && NoneStranded(s) && CanWork(s, w, o) && Smooth(s, Work(w, o))
    requires r in WorkStep(s, w, o).rows && WorkStep(s, w, o).rows[r].status == Claimed
    ensures Holds(WorkStep(s, w, o), r)
  {
    var t := WorkStep(s, w, o);
    WorkMovesOne(s, w, o);
    if s.rows[r].status == Claimed {
      assert Holds(s, r);
      var v :| 0 <= v < |s.workers| && s.workers[v].Held() == Some(r);
      if v == w {
        HoldingGoesOn(s, w, o, r);
      }
      assert t.workers[v].Held() == Some(r);
    } else {
      TakingIsHolding(s, w, o, r);
    }
  }

  lemma CommitKeepsEnd(s: State, w: nat)
    requires WillEnd(s) && CanWork(s, w, CommitOutcome)
    ensures WillEnd(WorkStep(s, w, CommitOutcome))
  {
    var t := WorkStep(s, w, CommitOutcome);
    if d :| 0 <= d < |s.dispatchers| && WillFinalise(s.dispatchers[d]) {
      assert WillFinalise(t.dispatchers[d]);
    } else if v :| 0 <= v < |s.workers| && WorkerWillFinalise(s.workers[v]) {
      assert WorkerWillFinalise(t.workers[v]);
    }
  }

  lemma WorkKeepsEnd(s: State, w: nat, o: WorkOp)
    requires WillEnd(s) && CanWork(s, w, o) && Smooth(s, Work(w, o))
    ensures WillEnd(WorkStep(s, w, o))
  {
    match o
    case CommitOutcome => CommitKeepsEnd(s, w);
    case FinaliseIfDone =>
    case PauseCampaign =>
    case Fault =>
    case Crash =>
    case _ => assert WorkerWillFinalise(WorkStep(s, w, o).workers[w]);
  }

  lemma WorkKeepsStep(s: State, w: nat, o: WorkOp)
    requires CanWork(s, w, o) && InStep(s.workers[w])
    ensures InStep(WorkStep(s, w, o).workers[w])
  {
  }

  lemma WorkKeepsAllInStep(s: State, w: nat, o: WorkOp)
    requires AllInStep(s) && CanWork(s, w, o)
    ensures AllInStep(WorkStep(s, w, o))
  {
    WorkMovesOne(s, w, o);
    WorkKeepsStep(s, w, o);
  }

  lemma WorkKeepsAllOwed(s: State, w: nat, o: WorkOp)
    requires NoneStranded(s) && CanWork(s, w, o) && Smooth(s, Work(w, o))
    ensures var t := WorkStep(s, w, o);
            t.status == Sending ==> forall r :: r in t.rows && t.rows[r].status == Pending ==> Owed(t, r)
  {
    var t := WorkStep(s, w, o);
    if t.status == Sending {
      forall r | r in t.rows && t.rows[r].status == Pending ensures Owed(t, r) {
        WorkKeepsOwed(s, w, o, r);
      }
    }
  }

  lemma WorkKeepsAllClaims(s: State, w: nat, o: WorkOp)
    requires Delivery.Inv(s) && NoneStranded(s) && CanWork(s, w, o) && Smooth(s, Work(w, o))
    ensures var t := WorkStep(s, w, o);
            forall r :: r in t.rows && t.rows[r].status == Claimed ==> Holds(t, r)
  {
    var t := WorkStep(s, w, o);
    forall r | r in t.rows && t.rows[r].status == Claimed ensures Holds(t, r) {
      WorkKeepsClaims(s, w, o, r);
    }
  }

  // ---------------------------------------------------------------- every step

  lemma StartDispatchKeeps(s: State, replay: bool)
    requires NoneStranded(s) && Can(s, StartDispatch(replay))
    ensures NoneStranded(Step(s, StartDispatch(replay))) && WillEnd(Step(s, StartDispatch(replay)))
  {
    var t := Step(s, StartDispatch(replay));
    var me := t.dispatchers[|s.dispatchers|];
    assert WillFinalise(me);
    forall r | r in t.rows && t.rows[r].status == Claimed ensures Holds(t, r) {
      assert Holds(s, r);
    }
    forall r ensures Owed(t, r) {
      assert DispatcherOwes(me, r);
    }
  }

  lemma DropKeeps(s: State, op: Op)
    requires NoneStranded(s) && WillEnd(s) && Can(s, op) && (op.DropDispatch? || op.DropBatch?)
    ensures NoneStranded(Step(s, op)) && WillEnd(Step(s, op))
  {
    var t := Step(s, op);
    forall r | r in t.rows && t.rows[r].status == Claimed ensures Holds(t, r) {
      assert Holds(s, r);
    }
  }

  lemma StepKeeps(s: State, op: Op)
    requires Inv(s) && Can(s, op) && Smooth(s, op)
    ensures Inv(Step(s, op))
  {
    Delivery.StepKeeps(s, op);
    match op
    case Api(a) => ApiKeeps(s, a);
    case StartDispatch(replay) => StartDispatchKeeps(s, replay);
    case Dispatch(d, o) => DispatchKeeps(s, d, o);
    case StartBatch(ids, replay) => StartKeeps(s, ids, replay);
    case Work(w, o) =>
      WorkKeepsEnd(s, w, o);
      WorkKeepsAllInStep(s, w, o);
      WorkKeepsAllOwed(s, w, o);
      WorkKeepsAllClaims(s, w, o);
    case _ => DropKeeps(s, op);
  }

  // ---------------------------------------------------------------- recovery

  /** The claims nobody works on any more. */
  function Orphaned(s: State): set<RowId> {
    set r | r in s.rows && s.rows[r].status == Claimed && !Holds(s, r)
  }

  /** A dispatch whose stale recovery frees every claim nobody works on, and perhaps others. */
  predicate FullRecovery(s: State, op: Op) {
    op.Dispatch? && op.dop.Recover? && Orphaned(s) <= op.dop.freed
  }

  lemma AllInStepKept(s: State, op: Op)
    requires AllInStep(s) && Can(s, op)
    ensures AllInStep(Step(s, op))
  {
    if op.Work? {
      WorkKeepsAllInStep(s, op.w, op.wop);
    }
  }

  lemma {:induction false} AllInStepAlways(tr: seq<State>, ops: seq<Op>, i: nat)
    requires Behaviour(tr, ops) && i < |tr|
    ensures AllInStep(tr[i])
  {
    if i > 0 {
      AllInStepAlways(tr, ops, i - 1);
      AllInStepKept(tr[i - 1], ops[i - 1]);
    }
  }

  lemma RecoveryHoldsAll(s: State, d: nat, freed: set<RowId>)
    requires CanDispatch(s, d, Recover(freed)) && Orphaned(s) <= freed
    ensures var t := DispatchStep(s, d, Recover(freed));
            forall r :: r in t.rows && t.rows[r].status == Claimed ==> Holds(t, r)
  {
    var t := DispatchStep(s, d, Recover(freed));
    assert t.workers == s.workers;
    forall r | r in t.rows && t.rows[r].status == Claimed ensures Holds(t, r) {
      assert r !in Orphaned(s);
      assert Holds(s, r);
    }
  }

  /** Whatever was lost before, after a full recovery every row is accounted for again. */
  lemma RecoveryRestores(s: State, d: nat, freed: set<RowId>)
    requires Delivery.Inv(s) && AllInStep(s) && CanDispatch(s, d, Recover(freed)) && Orphaned(s) <= freed
    ensures Inv(DispatchStep(s, d, Recover(freed)))
  {
    Delivery.DispatchKeeps(s, d, Recover(freed));
    RecoveryHoldsAll(s, d, freed);
    var t := DispatchStep(s, d, Recover(freed));
    assert WillFinalise(t.dispatchers[d]);
    forall r: RowId ensures Owed(t, r) {
      assert DispatcherOwes(t.dispatchers[d], r);
    }
  }

  // ---------------------------------------------------------------- behaviours

  lemma InitOk()
    ensures Inv(INIT)
  {
    Delivery.InitOk();
  }

  /** Position `i` is the start of the run, or follows a full recovery. */
  ghost predicate FreshAt(tr: seq<State>, ops: seq<Op>, i: nat)
    requires |tr| == |ops| + 1
  {
    i == 0 || (i <= |ops| && FullRecovery(tr[i - 1], ops[i - 1]))
  }

  /** From `i` to `j` no worker dies or gives up; before `i` anything may have happened. */
  ghost predicate SmoothBetween(tr: seq<State>, ops: seq<Op>, i: nat, j: nat)
    requires |tr| == |ops| + 1
  {
    i <= j <= |ops| && forall k {:trigger ops[k]} :: i <= k < j ==> Smooth(tr[k], ops[k])
  }

  lemma {:induction false} InvAlways(tr: seq<State>, ops: seq<Op>, i: nat, j: nat)
    requires Behaviour(tr, ops) && FreshAt(tr, ops, i) && SmoothBetween(tr, ops, i, j)
    ensures Inv(tr[j])
  {
    if j == 0 {
      InitOk();
    } else if i == j {
      Delivery.InvAlways(tr, ops, i - 1);
      AllInStepAlways(tr, ops, i - 1);
      RecoveryRestores(tr[i - 1], ops[i - 1].d, ops[i - 1].dop.freed);
    } else {
      InvAlways(tr, ops, i, j - 1);
      StepKeeps(tr[j - 1], ops[j - 1]);
    }
  }

  /** While the campaign is `sending`, every pending row is in a queued batch, ahead of a
      running worker or dispatch, or due to one that is queued: from the start, and from
      every full recovery on, whatever crashed before it, until something crashes again.
      Any number of dispatches, live claims recovered and cancels in mid-send included. */
  lemma NoRowIsStranded(tr: seq<State>, ops: seq<Op>, i: nat, j: nat, r: RowId)
    requires Behaviour(tr, ops) && FreshAt(tr, ops, i) && SmoothBetween(tr, ops, i, j)
    requires tr[j].status == Sending && r in tr[j].rows && tr[j].rows[r].status == Pending
    ensures Owed(tr[j], r)
  {
    InvAlways(tr, ops, i, j);
  }

  predicate Quiescent(s: State) {
    && s.dispatchDue == 0 && s.jobs == multiset{}
    && (forall d :: 0 <= d < |s.dispatchers| ==> s.dispatchers[d] == Idle)
    && (forall w :: 0 <= w < |s.workers| ==> s.workers[w].phase == Done)
  }

  /** A campaign never gets stuck: with no job queued and no worker running it is not
      `sending`, so a launched run, or one a full recovery has taken up again, ends
      completed, paused or cancelled. */
  lemma NeverStuck(tr: seq<State>, ops: seq<Op>, i: nat, j: nat)
    requires Behaviour(tr, ops) && FreshAt(tr, ops, i) && SmoothBetween(tr, ops, i, j) && Quiescent(tr[j])
    ensures tr[j].status != Sending
  {
    InvAlways(tr, ops, i, j);
    QuiescentIsNotSending(tr[j]);
  }

  lemma QuiescentIsNotSending(s: State)
    requires Inv(s) && Quiescent(s)
    ensures s.status != Sending
  {
  }
}
