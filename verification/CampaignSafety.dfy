/** What the claim design guarantees under the scheduling hypotheses of `Fence`:
    exclusive claims, conserved counters, and statuses that mean what they say. */
module CampaignSafety {
  import opened Options
  import opened Audience
  import opened CampaignProtocol
  import opened CampaignCounting

  /** No two workers hold one row. */
  ghost predicate Apart(s: State) {
    forall v, w :: 0 <= v < w < |s.workers| && s.workers[v].Held().Some? ==>
      s.workers[v].Held() != s.workers[w].Held()
  }

  /** Every claim in progress is on a row marked `sending`, and no two share a row. */
  ghost predicate Exclusive(s: State) {
    && (forall w :: 0 <= w < |s.workers| && s.workers[w].Held().Some? ==>
          s.workers[w].Held().value in s.rows && s.rows[s.workers[w].Held().value].status == Claimed)
    && Apart(s)
  }

  predicate Writing(d: Dispatcher) {
    d == Preparing || d == Materialising || d.Counted?
  }

  /** Until the audience is recorded nothing was queued, and one dispatch writes it. */
  ghost predicate Orderly(s: State) {
    && (s.stats.audienceSize == 0 ==> Unstarted(s) && OneActive(s.dispatchers))
    && (forall d :: 0 <= d < |s.dispatchers| ==> PhaseOk(s, s.dispatchers[d]))
    && (s.status in {Draft, Scheduled} ==> Untouched(s))
    && (forall r :: r in s.rows ==> r < s.nextId)
  }

  ghost predicate Untouched(s: State) {
    s.rows == map[] && s.stats.audienceSize == 0 && forall d :: 0 <= d < |s.dispatchers| ==> s.dispatchers[d] == Idle
  }

  ghost predicate OneActive(ds: seq<Dispatcher>) {
    forall d, e :: 0 <= d < e < |ds| ==> !Active(ds[d]) || !Active(ds[e])
  }

  ghost predicate Unstarted(s: State) {
    && s.jobs == multiset{} && s.workers == [] && s.lostSent == 0 && s.lostFailed == 0
    && (s.status != Cancelled ==> s.stats.skipped == 0)
    && forall r :: r in s.rows ==> s.rows[r].status in {Pending, Skipped}
  }

  predicate PhaseOk(s: State, d: Dispatcher) {
    && (Writing(d) ==> s.stats.audienceSize == 0)
    && (MidAudience(d) ==> s.status !in {Completed, Cancelled})
    && (d.Counted? ==> d == Counted(|s.rows|, Tally(s.rows, Pending)))
    && ((d == Recovering || d.Queueing?) && s.stats.audienceSize == 0 ==> s.rows == map[])
    && (d.Queueing? ==> d.from <= s.nextId)
  }

  /** The campaign's counters, plus what is still in the workers' hands or was lost
      with a dead worker, are the ledger's own counts. */
  ghost predicate Books(s: State) {
    && s.stats.sent + Uncommitted(s.workers, true) + s.lostSent == Tally(s.rows, Sent)
    && s.stats.failed + Uncommitted(s.workers, false) + s.lostFailed == Tally(s.rows, Failed)
    && (s.stats.audienceSize > 0 ==> s.stats.audienceSize == |s.rows| && s.stats.skipped == Tally(s.rows, Skipped))
  }

  /** A finished campaign has no work left. */
  ghost predicate Settled(s: State) {
    s.status in {Completed, Cancelled} ==> Unfinished(s.rows) == {}
  }

  ghost predicate Inv(s: State) {
    Exclusive(s) && Orderly(s) && Books(s) && Settled(s)
  }

  // ---------------------------------------------------------------- requests

  lemma NoneHeld(s: State)
    requires Exclusive(s) && forall r :: r in s.rows ==> !Holds(s, r)
    ensures forall w :: 0 <= w < |s.workers| ==> s.workers[w].Held() == None
  {
    forall w | 0 <= w < |s.workers| ensures s.workers[w].Held() == None {
      if s.workers[w].Held().Some? {
        assert Holds(s, s.workers[w].Held().value);
      }
    }
  }

  lemma CancelKeepsBooks(s: State)
    requires Books(s) && CanApi(s, Cancel)
    ensures Books(ApiStep(s, Cancel))
  {
    var swept := Unfinished(s.rows);
    var t := ApiStep(s, Cancel);
    assert Tally(t.rows, Sent) == Tally(s.rows, Sent) && Tally(t.rows, Failed) == Tally(s.rows, Failed) by {
      RetagKeeps(s.rows, swept, Skipped, Sent);
      RetagKeeps(s.rows, swept, Skipped, Failed);
    }
    RetagTallies(s.rows, swept, Skipped);
  }

  lemma CancelOrder(s: State)
    requires Orderly(s) && CanApi(s, Cancel) && Fence(s, Api(Cancel))
    ensures Orderly(ApiStep(s, Cancel))
  {
    var t := ApiStep(s, Cancel);
    forall d | 0 <= d < |t.dispatchers| ensures PhaseOk(t, t.dispatchers[d]) {
      assert PhaseOk(s, s.dispatchers[d]);
      if s.dispatchers[d].Counted? {
        CountedSweepsNothing(s, s.dispatchers[d]);
      }
    }
  }

  /** A dispatch that counted no pending row leaves a cancel nothing to sweep. */
  lemma CountedSweepsNothing(s: State, d: Dispatcher)
    requires PhaseOk(s, d) && d.Counted? && d.sendable == 0 && Unstarted(s)
    ensures Unfinished(s.rows) == {} && Retag(s.rows, Unfinished(s.rows), Skipped) == s.rows
  {
    assert WithStatus(s.rows, Claimed) == {};
  }

  lemma CancelSettles(s: State)
    requires CanApi(s, Cancel)
    ensures Settled(ApiStep(s, Cancel))
  {
    var swept := Unfinished(s.rows);
    RetagMembers(s.rows, swept, Skipped, Pending);
    RetagMembers(s.rows, swept, Skipped, Claimed);
    assert Unfinished(ApiStep(s, Cancel).rows) == {};
  }

  lemma RetryKeepsBooks(s: State)
    requires Books(s) && CanApi(s, Retry)
    ensures Books(ApiStep(s, Retry))
  {
    var failed := WithStatus(s.rows, Failed);
    RetagTallies(s.rows, failed, Pending);
    RetagMembers(s.rows, failed, Pending, Failed);
    RetagKeeps(s.rows, failed, Pending, Sent);
    RetagKeeps(s.rows, failed, Pending, Skipped);
    assert failed - failed == {};
  }

  lemma RetryOrder(s: State)
    requires Orderly(s) && CanApi(s, Retry)
    ensures Orderly(ApiStep(s, Retry))
  {
    assert s.stats.audienceSize > 0;
  }

  lemma LaunchKeeps(s: State, future: bool)
    requires Inv(s) && CanApi(s, Launch(future))
    ensures Inv(ApiStep(s, Launch(future)))
  {
    assert WithStatus(s.rows, Sent) == {} && WithStatus(s.rows, Failed) == {};
  }

  lemma PlainApiKeeps(s: State, a: ApiOp)
    requires Inv(s) && CanApi(s, a) && a in {Promote, Pause, Resume}
    ensures Inv(ApiStep(s, a))
  {
  }

  lemma ApiKeeps(s: State, a: ApiOp)
    requires Inv(s) && CanApi(s, a) && Fence(s, Api(a))
    ensures Inv(ApiStep(s, a))
  {
    match a
    case Cancel =>
      NoneHeld(s);
      CancelKeepsBooks(s);
      CancelOrder(s);
      CancelSettles(s);
    case Retry =>
      RetryKeepsBooks(s);
      RetryOrder(s);
    case Launch(future) => LaunchKeeps(s, future);
    case _ => PlainApiKeeps(s, a);
  }

  // ---------------------------------------------------------------- dispatch

  /** A dispatch that leaves the workers alone keeps the claims whose rows it leaves alone. */
  lemma SameClaims(s: State, t: State)
    requires Exclusive(s) && t.workers == s.workers
    requires forall w :: 0 <= w < |s.workers| && s.workers[w].Held().Some? ==>
               s.workers[w].Held().value in t.rows
               && t.rows[s.workers[w].Held().value].status == s.rows[s.workers[w].Held().value].status
    ensures Exclusive(t)
  {
  }

  lemma AloneWriting(s: State, d: nat)
    requires Orderly(s) && d < |s.dispatchers| && Writing(s.dispatchers[d])
    ensures s.stats.audienceSize == 0 && Unstarted(s) && s.status !in {Draft, Scheduled}
    ensures forall e :: 0 <= e < |s.dispatchers| && e != d ==> !Active(s.dispatchers[e])
  {
    assert PhaseOk(s, s.dispatchers[d]);
  }

  lemma UpsertKeeps(s: State, d: nat, decision: RecipientDecision)
    requires Inv(s) && CanDispatch(s, d, Upsert(decision))
    ensures Inv(DispatchStep(s, d, Upsert(decision)))
  {
    AloneWriting(s, d);
    TallyInsert(s.rows, s.nextId, FreshRow(decision), Sent);
    TallyInsert(s.rows, s.nextId, FreshRow(decision), Failed);
    UpsertOrder(s, d, decision);
    assert PhaseOk(s, s.dispatchers[d]);
  }

  lemma UpsertOrder(s: State, d: nat, decision: RecipientDecision)
    requires Orderly(s) && CanDispatch(s, d, Upsert(decision))
    ensures Orderly(DispatchStep(s, d, Upsert(decision)))
  {
    var t := DispatchStep(s, d, Upsert(decision));
    AloneWriting(s, d);
    forall e | 0 <= e < |t.dispatchers| ensures PhaseOk(t, t.dispatchers[e]) {
      assert PhaseOk(s, s.dispatchers[e]);
    }
  }

  lemma RecoverKeepsBooks(s: State, d: nat, freed: set<RowId>)
    requires Books(s) && CanDispatch(s, d, Recover(freed))
    ensures Books(DispatchStep(s, d, Recover(freed)))
  {
    RetagTallies(s.rows, freed, Pending);
    RetagKeeps(s.rows, freed, Pending, Sent);
    RetagKeeps(s.rows, freed, Pending, Failed);
    RetagKeeps(s.rows, freed, Pending, Skipped);
  }

  lemma RecoverExclusive(s: State, d: nat, freed: set<RowId>)
    requires Exclusive(s) && CanDispatch(s, d, Recover(freed)) && Fence(s, Dispatch(d, Recover(freed)))
    ensures Exclusive(DispatchStep(s, d, Recover(freed)))
  {
    forall w | 0 <= w < |s.workers| && s.workers[w].Held().Some?
      ensures s.workers[w].Held().value !in freed
    {
      assert Holds(s, s.workers[w].Held().value);
    }
  }

  lemma RecoverOrder(s: State, d: nat, freed: set<RowId>)
    requires Orderly(s) && Settled(s) && CanDispatch(s, d, Recover(freed))
    ensures Orderly(DispatchStep(s, d, Recover(freed))) && Settled(DispatchStep(s, d, Recover(freed)))
  {
    var t := DispatchStep(s, d, Recover(freed));
    assert PhaseOk(s, s.dispatchers[d]);
    if s.stats.audienceSize == 0 || s.status in {Completed, Cancelled} {
      assert freed == {};
      assert t.rows == s.rows;
    }
    forall e | 0 <= e < |t.dispatchers| ensures PhaseOk(t, t.dispatchers[e]) {
      assert PhaseOk(s, s.dispatchers[e]);
    }
  }

  lemma NothingTried(s: State)
    requires Orderly(s) && s.stats.audienceSize == 0
    ensures Tally(s.rows, Sent) == Tally(s.rows, Failed) == Tally(s.rows, Claimed) == 0
  {
    assert WithStatus(s.rows, Sent) == {} && WithStatus(s.rows, Failed) == {} && WithStatus(s.rows, Claimed) == {};
  }

  lemma OverflowKeeps(s: State, d: nat)
    requires Inv(s) && CanDispatch(s, d, Overflow)
    ensures Inv(DispatchStep(s, d, Overflow))
  {
    AloneWriting(s, d);
    NothingTried(s);
    assert WithStatus(map[], Sent) == {} && WithStatus(map[], Failed) == {};
  }

  lemma WriteCountsKeeps(s: State, d: nat)
    requires Inv(s) && CanDispatch(s, d, WriteCounts)
    ensures Inv(DispatchStep(s, d, WriteCounts))
  {
    AloneWriting(s, d);
    WriteCountsOrder(s, d);
    StatusesPartition(s.rows);
    NothingTried(s);
    assert PhaseOk(s, s.dispatchers[d]);
  }

  lemma WriteCountsOrder(s: State, d: nat)
    requires Orderly(s) && CanDispatch(s, d, WriteCounts)
    ensures Orderly(DispatchStep(s, d, WriteCounts))
  {
    var t := DispatchStep(s, d, WriteCounts);
    AloneWriting(s, d);
    assert PhaseOk(s, s.dispatchers[d]);
    if |s.rows| == 0 {
      assert s.rows == map[];
      assert WithStatus(s.rows, Pending) == {};
    }
    forall e | 0 <= e < |t.dispatchers| ensures PhaseOk(t, t.dispatchers[e]) {
      assert PhaseOk(s, s.dispatchers[e]);
    }
  }

  lemma EnqueueKeeps(s: State, d: nat, ids: seq<RowId>)
    requires Inv(s) && CanDispatch(s, d, Enqueue(ids))
    ensures Inv(DispatchStep(s, d, Enqueue(ids)))
  {
    var t := DispatchStep(s, d, Enqueue(ids));
    assert ids[0] in ids && ids[|ids| - 1] in ids;
    assert PhaseOk(s, s.dispatchers[d]);
    forall e | 0 <= e < |t.dispatchers| ensures PhaseOk(t, t.dispatchers[e]) {
      assert PhaseOk(s, s.dispatchers[e]);
    }
  }

  /** The steps that change only where the dispatch stands, and perhaps pause the campaign. */
  predicate MovesOnly(o: DispatchOp) {
    o.OpenCursor? || o.NoPredicate? || o.PauseRun? || o.Count? || o.DispatchCrash?
  }

  lemma MoveOrder(s: State, d: nat, o: DispatchOp)
    requires Orderly(s) && CanDispatch(s, d, o) && MovesOnly(o)
    ensures Orderly(DispatchStep(s, d, o))
  {
    var t := DispatchStep(s, d, o);
    if Writing(s.dispatchers[d]) {
      AloneWriting(s, d);
    }
    assert PhaseOk(s, s.dispatchers[d]);
    forall e | 0 <= e < |t.dispatchers| ensures PhaseOk(t, t.dispatchers[e]) {
      assert PhaseOk(s, s.dispatchers[e]);
    }
  }

  lemma FinishKeeps(s: State, d: nat)
    requires Inv(s) && CanDispatch(s, d, Finish)
    ensures Inv(DispatchStep(s, d, Finish))
  {
    var t := DispatchStep(s, d, Finish);
    assert PhaseOk(s, s.dispatchers[d]);
    forall e | 0 <= e < |t.dispatchers| ensures PhaseOk(t, t.dispatchers[e]) {
      assert PhaseOk(s, s.dispatchers[e]);
      if Writing(s.dispatchers[e]) {
        AloneWriting(s, e);
      }
    }
  }

  lemma DispatchKeeps(s: State, d: nat, o: DispatchOp)
    requires Inv(s) && CanDispatch(s, d, o) && Fence(s, Dispatch(d, o))
    ensures Inv(DispatchStep(s, d, o))
  {
    match o
    case Upsert(decision) => UpsertKeeps(s, d, decision);
    case Recover(freed) =>
      RecoverKeepsBooks(s, d, freed);
      RecoverExclusive(s, d, freed);
      RecoverOrder(s, d, freed);
    case Overflow => OverflowKeeps(s, d);
    case WriteCounts => WriteCountsKeeps(s, d);
    case Enqueue(ids) => EnqueueKeeps(s, d, ids);
    case Finish => FinishKeeps(s, d);
    case _ =>
      MoveOrder(s, d, o);
      SameClaims(s, DispatchStep(s, d, o));
  }

  // ---------------------------------------------------------------- send workers

  /** What a worker's step may do to the ledger: touch one row, and only one that it
      held or that nobody could be holding. */
  ghost predicate Touches(s: State, t: State, w: nat, r: RowId) {
    && w < |s.workers| && |t.workers| == |s.workers|
    && t.workers == s.workers[w := t.workers[w]]
    && t.rows.Keys == s.rows.Keys
    && (forall q :: q in s.rows && q != r ==> t.rows[q] == s.rows[q])
    && (r in s.rows && t.rows[r] != s.rows[r] ==>
          s.workers[w].Held() == Some(r) || (s.rows[r].status == Pending && t.rows[r].status == Claimed))
    && (t.workers[w].Held() == None
        || (t.workers[w].Held() == Some(r) && r in t.rows && t.rows[r].status == Claimed
            && (s.workers[w].Held() == Some(r) || s.rows[r].status == Pending)))
  }

  function Target(s: State, w: nat): RowId
    requires w < |s.workers|
  {
    var k := s.workers[w];
    if k.phase == Claim && k.index < |k.ids| then k.ids[k.index] else k.Held().GetOr(0)
  }

  lemma WriteTouches(s: State, w: nat, fault: bool)
    requires Exclusive(s) && CanWork(s, w, WriteOutcome(fault))
    ensures Touches(s, WriteStep(s, w, fault), w, Target(s, w))
  {
  }

  lemma WorkTouches(s: State, w: nat, o: WorkOp)
    requires Exclusive(s) && CanWork(s, w, o)
    ensures Touches(s, WorkStep(s, w, o), w, Target(s, w))
  {
    if o.WriteOutcome? {
      WriteTouches(s, w, o.fault);
    }
  }

  lemma TouchingKeepsExclusive(s: State, t: State, w: nat, r: RowId)
    requires Exclusive(s) && Touches(s, t, w, r)
    ensures Exclusive(t)
  {
    forall v | 0 <= v < |s.workers| && v != w && s.workers[v].Held().Some?
      ensures s.workers[v].Held() != t.workers[w].Held()
      ensures var q := s.workers[v].Held().value; t.rows[q] == s.rows[q]
    {
      assert s.workers[v].Held() != s.workers[w].Held() by {
        if v < w { } else { }
      }
    }
  }

  lemma WorkKeepsOrder(s: State, w: nat, o: WorkOp)
    requires Orderly(s) && CanWork(s, w, o)
    ensures Orderly(WorkStep(s, w, o))
  {
    var t := WorkStep(s, w, o);
    assert s.stats.audienceSize > 0 && t.stats.audienceSize == s.stats.audienceSize;
    forall d | 0 <= d < |t.dispatchers| ensures PhaseOk(t, t.dispatchers[d]) {
      assert PhaseOk(s, s.dispatchers[d]);
    }
  }

  lemma WorkKeepsSettled(s: State, w: nat, o: WorkOp)
    requires Exclusive(s) && Settled(s) && CanWork(s, w, o)
    ensures Settled(WorkStep(s, w, o))
  {
    WorkTouches(s, w, o);
  }

  lemma WriteKeepsBooks(s: State, w: nat, fault: bool)
    requires Inv(s) && CanWork(s, w, WriteOutcome(fault))
    ensures Books(WriteStep(s, w, fault))
  {
    var t := WriteStep(s, w, fault);
    var r := s.workers[w].phase.row;
    UncommittedUpdate(s.workers, w, t.workers[w], true);
    UncommittedUpdate(s.workers, w, t.workers[w], false);
    assert t.rows == s.rows[r := t.rows[r]];
    TallyUpdate(s.rows, r, t.rows[r], Sent);
    TallyUpdate(s.rows, r, t.rows[r], Failed);
    TallyUpdate(s.rows, r, t.rows[r], Skipped);
  }

  lemma ClaimKeepsBooks(s: State, w: nat)
    requires Inv(s) && CanWork(s, w, TryClaim)
    ensures Books(ClaimStep(s, w))
  {
    var t := ClaimStep(s, w);
    UncommittedUpdate(s.workers, w, t.workers[w], true);
    UncommittedUpdate(s.workers, w, t.workers[w], false);
    var r := Target(s, w);
    if r in s.rows {
      assert t.rows == s.rows[r := t.rows[r]];
      TallyUpdate(s.rows, r, t.rows[r], Sent);
      TallyUpdate(s.rows, r, t.rows[r], Failed);
      TallyUpdate(s.rows, r, t.rows[r], Skipped);
    }
  }

  lemma WorkKeepsBooks(s: State, w: nat, o: WorkOp)
    requires Inv(s) && CanWork(s, w, o)
    ensures Books(WorkStep(s, w, o))
  {
    match o
    case WriteOutcome(fault) => WriteKeepsBooks(s, w, fault);
    case TryClaim => ClaimKeepsBooks(s, w);
    case _ =>
      var t := WorkStep(s, w, o);
      UncommittedUpdate(s.workers, w, t.workers[w], true);
      UncommittedUpdate(s.workers, w, t.workers[w], false);
  }

  lemma StartDispatchKeeps(s: State, replay: bool)
    requires Inv(s) && Can(s, StartDispatch(replay)) && Fence(s, StartDispatch(replay))
    ensures Inv(Step(s, StartDispatch(replay)))
  {
    var t := Step(s, StartDispatch(replay));
    forall e | 0 <= e < |t.dispatchers| ensures PhaseOk(t, t.dispatchers[e]) {
      if e < |s.dispatchers| {
        assert PhaseOk(s, s.dispatchers[e]);
      }
    }
    SameClaims(s, t);
  }

  lemma StartBatchKeepsBooks(s: State, ids: seq<RowId>, replay: bool)
    requires Books(s) && Can(s, StartBatch(ids, replay))
    ensures Books(Step(s, StartBatch(ids, replay)))
  {
    UncommittedAppend(s.workers, Worker(ids, 0, Check, 0, 0), true);
    UncommittedAppend(s.workers, Worker(ids, 0, Check, 0, 0), false);
  }

  lemma StartBatchOrder(s: State, ids: seq<RowId>, replay: bool)
    requires Orderly(s) && Can(s, StartBatch(ids, replay))
    ensures Orderly(Step(s, StartBatch(ids, replay)))
  {
    var t := Step(s, StartBatch(ids, replay));
    assert s.stats.audienceSize > 0;
    forall e | 0 <= e < |t.dispatchers| ensures PhaseOk(t, t.dispatchers[e]) {
      assert PhaseOk(s, s.dispatchers[e]);
    }
  }

  lemma StartBatchExclusive(s: State, ids: seq<RowId>, replay: bool)
    requires Exclusive(s) && Can(s, StartBatch(ids, replay))
    ensures Exclusive(Step(s, StartBatch(ids, replay)))
  {
  }

  lemma DropKeeps(s: State, op: Op)
    requires Inv(s) && Can(s, op) && (op.DropDispatch? || op.DropBatch?)
    ensures Inv(Step(s, op))
  {
    SameClaims(s, Step(s, op));
  }

  lemma StepKeeps(s: State, op: Op)
    requires Inv(s) && Can(s, op) && Fence(s, op)
    ensures Inv(Step(s, op))
  {
    match op
    case Api(a) => ApiKeeps(s, a);
    case Dispatch(d, o) => DispatchKeeps(s, d, o);
    case Work(w, o) =>
      WorkTouches(s, w, o);
      TouchingKeepsExclusive(s, WorkStep(s, w, o), w, Target(s, w));
      WorkKeepsOrder(s, w, o);
      WorkKeepsSettled(s, w, o);
      WorkKeepsBooks(s, w, o);
    case StartBatch(ids, replay) =>
      StartBatchKeepsBooks(s, ids, replay);
      StartBatchOrder(s, ids, replay);
      StartBatchExclusive(s, ids, replay);
    case StartDispatch(replay) => StartDispatchKeeps(s, replay);
    case _ => DropKeeps(s, op);
  }

  lemma EmptyOk(s: State)
    requires s.workers == [] && s.dispatchers == [] && s.rows == map[] && s.jobs == multiset{}
    requires s.stats == NO_STATS && s.status == Draft && s.lostSent == 0 == s.lostFailed
    ensures Inv(s)
  {
    assert WithStatus(s.rows, Sent) == {} && WithStatus(s.rows, Failed) == {};
  }

  lemma {:induction false} InvAlways(tr: seq<State>, ops: seq<Op>, i: nat)
    requires Fenced(tr, ops) && i < |tr|
    ensures Inv(tr[i])
  {
    if i == 0 {
      EmptyOk(tr[0]);
    } else {
      InvAlways(tr, ops, i - 1);
      StepKeeps(tr[i - 1], ops[i - 1]);
    }
  }
}
