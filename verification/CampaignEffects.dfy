/** Who writes what: for each part of the state, exactly which steps change it and to what, and
    that nobody who still has work to do is without a next step. */
module CampaignEffects {
  import opened Options
  import opened Audience
  import opened CampaignProtocol

  // ---------------------------------------------------------------- rows

  datatype Event = Taken | Called | Returned

  /** Worker `op.w`, about to write what became of a row, writes it. */
  predicate Writes(s: State, op: Op, phase: Phase) {
    op.Work? && op.wop == WriteOutcome(false) && op.w < |s.workers| && s.workers[op.w].phase == phase
  }

  /** The step claims row `r`, hands it to the provider, or puts it back to be claimed again. */
  predicate Happens(e: Event, s: State, op: Op, r: RowId) {
    match e
    case Taken =>
      && op.Work? && op.wop == TryClaim && op.w < |s.workers|
      && var k := s.workers[op.w];
         k.index < |k.ids| && k.ids[k.index] == r && r in s.rows && s.rows[r].status == Pending
    case Called =>
      op.Work? && op.wop.CallProvider? && op.w < |s.workers| && s.workers[op.w].phase == Send(r)
    case Returned =>
      || (op == Api(Retry) && r in s.rows && s.rows[r].status == Failed)
      || (op.Dispatch? && op.dop.Recover? && r in op.dop.freed)
      || Writes(s, op, PutBack(r))
  }

  /** The step inserts row `r`, for a contact that has none. */
  ghost predicate Inserts(s: State, op: Op, r: RowId) {
    && op.Dispatch? && op.dop.Upsert? && r == s.nextId
    && forall q :: q in s.rows ==> s.rows[q].contact != op.dop.decision.contactId
  }

  function Becomes(s: State, op: Op, r: RowId): RowStatus
    requires r in s.rows
  {
    if Happens(Taken, s, op, r) then Claimed
    else if Happens(Returned, s, op, r) then Pending
    else if Writes(s, op, WriteSent(r)) then Sent
    else if Writes(s, op, WriteFailed(r)) then Failed
    else if op == Api(Cancel) && s.rows[r].status in {Pending, Claimed} then Skipped
    else s.rows[r].status
  }

  /** A row begins pending, or skipped if its decision named a reason, and never with an id
      used before; only an audience too large deletes it. */
  lemma RowsComeAndGo(s: State, d: nat, o: DispatchOp, r: RowId)
    requires CanDispatch(s, d, o) && s.nextId !in s.rows
    ensures var t, op := DispatchStep(s, d, o), Dispatch(d, o);
            && (r in t.rows <==> (r in s.rows && o != Overflow) || Inserts(s, op, r))
            && (Inserts(s, op, r) ==>
                  t.rows[r] == Row(o.decision.contactId, o.decision.destination,
                                   if o.decision.skipReason.Some? then Skipped else Pending, 0))
            && t.nextId == s.nextId + if Inserts(s, op, s.nextId) then 1 else 0
  {
  }

  lemma OthersKeepRows(s: State, op: Op)
    requires Can(s, op) && !op.Dispatch?
    ensures Step(s, op).rows.Keys == s.rows.Keys && Step(s, op).nextId == s.nextId
  {
    if op.Work? {
      WorkMovesOne(s, op.w, op.wop);
    }
  }

  lemma DispatchedRows(s: State, d: nat, o: DispatchOp, r: RowId)
    requires CanDispatch(s, d, o) && s.nextId !in s.rows && r in s.rows && r in DispatchStep(s, d, o).rows
    ensures DispatchStep(s, d, o).rows[r] == s.rows[r].(status := Becomes(s, Dispatch(d, o), r))
  {
  }

  lemma AskedRows(s: State, a: ApiOp, r: RowId)
    requires CanApi(s, a) && r in s.rows
    ensures r in ApiStep(s, a).rows && ApiStep(s, a).rows[r] == s.rows[r].(status := Becomes(s, Api(a), r))
  {
  }

  lemma WorkedRows(s: State, w: nat, o: WorkOp, r: RowId)
    requires CanWork(s, w, o) && r in s.rows
    ensures var op := Work(w, o);
            && r in WorkStep(s, w, o).rows
            && WorkStep(s, w, o).rows[r]
               == s.rows[r].(status := Becomes(s, op, r),
                             attempts := s.rows[r].attempts + if Happens(Taken, s, op, r) then 1 else 0)
  {
    match o
    case TryClaim =>
    case WriteOutcome(_) =>
    case _ =>
  }

  /** A row is claimed, recorded as sent or failed, put back and swept by these steps only, and
      by each of them; and a claim, and nothing else, is one more attempt. */
  lemma RowsChangeOnlySo(s: State, op: Op, r: RowId)
    requires Can(s, op) && s.nextId !in s.rows && r in s.rows && r in Step(s, op).rows
    ensures Step(s, op).rows[r]
            == s.rows[r].(status := Becomes(s, op, r),
                          attempts := s.rows[r].attempts + if Happens(Taken, s, op, r) then 1 else 0)
  {
    match op
    case Work(w, o) => WorkedRows(s, w, o, r);
    case Dispatch(d, o) => DispatchedRows(s, d, o, r);
    case Api(a) => AskedRows(s, a, r);
    case _ =>
  }

  // ---------------------------------------------------------------- counters

  /** Outcomes are added as a batch commits, and what a dying worker had not committed is lost. */
  lemma WorkedCounters(s: State, w: nat, o: WorkOp)
    requires CanWork(s, w, o)
    ensures var t, k := WorkStep(s, w, o), s.workers[w];
            && t.stats == (if o == CommitOutcome
                           then s.stats.(sent := s.stats.sent + k.sent, failed := s.stats.failed + k.failed)
                           else s.stats)
            && t.lostSent == s.lostSent + (if o == Crash then k.sent else 0)
            && t.lostFailed == s.lostFailed + (if o == Crash then k.failed else 0)
  {
    match o
    case TryClaim =>
    case WriteOutcome(_) =>
    case _ =>
  }

  /** A dispatch records size, queue and skips as it counted them, and touches no outcome. */
  lemma DispatchedCounters(s: State, d: nat, o: DispatchOp)
    requires CanDispatch(s, d, o)
    ensures var t, c := DispatchStep(s, d, o), s.dispatchers[d];
            && t.stats == (if o == WriteCounts
                           then Stats(c.size, c.sendable, s.stats.sent, s.stats.failed, c.size - c.sendable)
                           else s.stats)
            && t.lostSent == s.lostSent && t.lostFailed == s.lostFailed
  {
  }

  // ---------------------------------------------------------------- queues

  /** A dispatch queues jobs by `Enqueue` alone, and no worker and no due dispatch changes. */
  lemma DispatchedQueue(s: State, d: nat, o: DispatchOp)
    requires CanDispatch(s, d, o)
    ensures var t := DispatchStep(s, d, o);
            && t.jobs == (if o.Enqueue? then s.jobs + multiset{o.ids} else s.jobs)
            && t.workers == s.workers && t.dispatchDue == s.dispatchDue
  {
  }

  /** Of the two states only the queues, and the last of the running, may differ. */
  ghost predicate OnlyQueued(s: State, t: State) {
    && t.status == s.status && t.stats == s.stats && t.rows == s.rows && t.nextId == s.nextId && t.past == s.past
    && t.lostSent == s.lostSent && t.lostFailed == s.lostFailed
  }

  /** A job taken up or dropped leaves the queue, unless it is replayed, and a worker starts at
      its first row. */
  lemma JobTaken(s: State, ids: seq<RowId>, replay: bool)
    requires Can(s, StartBatch(ids, replay))
    ensures var t := Step(s, StartBatch(ids, replay));
            && OnlyQueued(s, t) && t.dispatchDue == s.dispatchDue && t.dispatchers == s.dispatchers
            && t.workers == s.workers + [Worker(ids, 0, Check, 0, 0)]
            && forall b :: t.jobs[b] == s.jobs[b] - if b == ids && !replay then 1 else 0
  {
  }

  lemma JobDropped(s: State, ids: seq<RowId>)
    requires Can(s, DropBatch(ids))
    ensures var t := Step(s, DropBatch(ids));
            && OnlyQueued(s, t) && t.dispatchDue == s.dispatchDue && t.dispatchers == s.dispatchers
            && t.workers == s.workers && forall b :: t.jobs[b] == s.jobs[b] - if b == ids then 1 else 0
  {
  }

  /** So does a dispatch; one of a campaign whose audience is recorded begins with recovery. */
  lemma DispatchTaken(s: State, replay: bool)
    requires Can(s, StartDispatch(replay))
    ensures var t := Step(s, StartDispatch(replay));
            && OnlyQueued(s, t) && t.jobs == s.jobs && t.workers == s.workers
            && t.dispatchDue == s.dispatchDue - (if replay then 0 else 1)
            && t.dispatchers == s.dispatchers + [if s.stats.audienceSize > 0 then Recovering else Preparing]
  {
  }

  lemma DispatchDropped(s: State)
    requires Can(s, DropDispatch)
    ensures Step(s, DropDispatch) == s.(dispatchDue := s.dispatchDue - 1)
  {
  }

  // ---------------------------------------------------------------- dispatches

  /** Where a dispatch stands after its own step. */
  function NextStage(s: State, me: Dispatcher, o: DispatchOp): Dispatcher {
    match o
    case OpenCursor => Materialising
    case Upsert(_) => me
    case Count => Counted(|s.rows|, |set r | r in s.rows && s.rows[r].status == Pending|)
    case WriteCounts => Recovering
    case Recover(_) => Queueing(0, 0)
    case Enqueue(ids) =>
      if me.Queueing? && ids != [] then Queueing(ids[|ids| - 1] + 1, me.queued + |ids|) else me
    case Overflow => Aborting
    case NoPredicate => Aborting
    case _ => Idle
  }

  /** A dispatch goes through its stages in their order, by its own steps alone. */
  lemma DispatchMovesOnlySo(s: State, d: nat, o: DispatchOp)
    requires CanDispatch(s, d, o)
    ensures DispatchStep(s, d, o).dispatchers == s.dispatchers[d := NextStage(s, s.dispatchers[d], o)]
  {
    assert WithStatus(s.rows, Pending) == set r | r in s.rows && s.rows[r].status == Pending;
  }

  // ---------------------------------------------------------------- workers

  /** Every 20 rows the worker looks whether the campaign is still sending. */
  predicate StopsHere(k: Worker, status: CampaignStatus) {
    k.index >= |k.ids| || (k.index > 0 && k.index % 20 == 0 && status != Sending)
  }

  ghost function NextPhase(s: State, w: nat, o: WorkOp): Phase
    requires CanWork(s, w, o)
  {
    var k := s.workers[w];
    match o
    case OpenFails => Abort(false)
    case Look => if StopsHere(k, s.status) then Commit(true) else Claim
    case TryClaim =>
      var r := k.ids[k.index];
      if Happens(Taken, s, Work(w, o), r) && s.rows[r].destination.GetOr("") != "" then Send(r) else Check
    case CallProvider(Accepted) => WriteSent(k.phase.row)
    case CallProvider(Rejected) => WriteFailed(k.phase.row)
    case CallProvider(Fatal) => PutBack(k.phase.row)
    case WriteOutcome(fault) =>
      if !fault then if k.phase.PutBack? then Abort(true) else Check
      else if k.phase.WriteSent? then WriteFailed(k.phase.row) else Commit(false)
    case PauseCampaign => Commit(k.phase.finish)
    case CommitOutcome => if k.phase.finish then Finalise else Done
    case Fault => Commit(false)
    case _ => Done
  }

  /** The worker's step leaves it at the next row exactly when it passes the row over or has
      recorded its outcome. */
  predicate Passes(s: State, w: nat, o: WorkOp)
    requires CanWork(s, w, o)
  {
    var k := s.workers[w];
    || (o == WriteOutcome(false) && !k.phase.PutBack?)
    || (o == TryClaim && !(Happens(Taken, s, Work(w, o), k.ids[k.index])
                           && s.rows[k.ids[k.index]].destination.GetOr("") != ""))
  }

  /** `l` is worker `w` after its step: at the next phase, the row passed, the outcome counted. */
  ghost predicate Moved(s: State, w: nat, o: WorkOp, l: Worker)
    requires CanWork(s, w, o)
  {
    var k := s.workers[w];
    && l.ids == k.ids && l.phase == NextPhase(s, w, o)
    && l.index == k.index + (if Passes(s, w, o) then 1 else 0)
    && l.sent == (if o in {CommitOutcome, Crash} then 0
                  else k.sent + if o == WriteOutcome(false) && k.phase.WriteSent? then 1 else 0)
    && l.failed == (if o in {CommitOutcome, Crash} then 0
                    else k.failed + if o == WriteOutcome(false) && k.phase.WriteFailed? then 1 else 0)
  }

  lemma ClaimMoves(s: State, w: nat)
    requires CanWork(s, w, TryClaim)
    ensures |ClaimStep(s, w).workers| == |s.workers| && Moved(s, w, TryClaim, ClaimStep(s, w).workers[w])
  {
  }

  lemma WriteMoves(s: State, w: nat, fault: bool)
    requires CanWork(s, w, WriteOutcome(fault))
    ensures |WriteStep(s, w, fault).workers| == |s.workers|
    ensures Moved(s, w, WriteOutcome(fault), WriteStep(s, w, fault).workers[w])
  {
  }

  /** A worker goes through the phases of a row in their order, by its own steps alone. */
  lemma WorkerMovesOnlySo(s: State, w: nat, o: WorkOp)
    requires CanWork(s, w, o)
    ensures |WorkStep(s, w, o).workers| == |s.workers| && Moved(s, w, o, WorkStep(s, w, o).workers[w])
  {
    match o
    case TryClaim => ClaimMoves(s, w);
    case WriteOutcome(fault) => WriteMoves(s, w, fault);
    case _ =>
  }

  // ---------------------------------------------------------------- no one is stuck

  /** A worker that is not done has a step of its own other than to die. */
  lemma WorkerGoesOn(s: State, w: nat)
    requires w < |s.workers| && s.workers[w].phase != Done
    requires s.workers[w].phase == Claim ==> s.workers[w].index < |s.workers[w].ids|
    ensures exists o :: o != Crash && o != Fault && CanWork(s, w, o)
  {
    match s.workers[w].phase
    case Check => assert CanWork(s, w, Look);
    case Claim => assert CanWork(s, w, TryClaim);
    case Send(_) => assert CanWork(s, w, CallProvider(Accepted));
    case WriteSent(_) => assert CanWork(s, w, WriteOutcome(false));
    case WriteFailed(_) => assert CanWork(s, w, WriteOutcome(false));
    case PutBack(_) => assert CanWork(s, w, WriteOutcome(false));
    case Abort(_) => assert CanWork(s, w, PauseCampaign);
    case Commit(_) => assert CanWork(s, w, CommitOutcome);
    case Finalise => assert CanWork(s, w, FinaliseIfDone);
  }

  lemma {:induction false} FirstOf(ids: set<RowId>) returns (r: RowId)
    requires ids != {}
    ensures r in ids && forall q :: q in ids ==> r <= q
    decreases |ids|
  {
    r :| r in ids;
    var rest := ids - {r};
    if rest != {} {
      var q := FirstOf(rest);
      assert forall p :: p in ids ==> p == r || p in rest;
      if q < r {
        r := q;
      }
    }
  }

  /** So has a dispatch; one that is queueing either ends or has a row to queue. */
  lemma DispatchGoesOn(s: State, d: nat)
    requires d < |s.dispatchers| && s.dispatchers[d] != Idle
    ensures exists o :: o != DispatchCrash && CanDispatch(s, d, o)
  {
    match s.dispatchers[d]
    case Preparing => assert CanDispatch(s, d, OpenCursor);
    case Materialising => assert CanDispatch(s, d, DispatchOp.Count);
    case Counted(_, _) => assert CanDispatch(s, d, WriteCounts);
    case Aborting => assert CanDispatch(s, d, PauseRun);
    case Recovering => assert CanDispatch(s, d, Recover({}));
    case Queueing(from, _) =>
      var left := set r | r in s.rows && from <= r && s.rows[r].status == Pending;
      if left == {} {
        assert forall r :: r in s.rows && from <= r ==> s.rows[r].status != Pending by {
          forall r | r in s.rows && from <= r ensures s.rows[r].status != Pending {
            assert r !in left;
          }
        }
        assert CanDispatch(s, d, Finish);
      } else {
        var r := FirstOf(left);
        forall q | q in s.rows && s.rows[q].status == Pending && from <= q <= r ensures q in [r] {
          assert q in left;
        }
        assert CanDispatch(s, d, Enqueue([r]));
      }
  }

  /** And every queued job and due dispatch is taken up or dropped, as the status says. */
  lemma QueuesGoOn(s: State, ids: seq<RowId>)
    ensures ids in s.jobs ==>
              (if s.status == Sending then Can(s, StartBatch(ids, false)) && Can(s, StartBatch(ids, true))
               else Can(s, DropBatch(ids)))
    ensures s.dispatchDue > 0 ==> if s.status == Sending then Can(s, StartDispatch(false)) else Can(s, DropDispatch)
  {
  }

  // ---------------------------------------------------------------- and no fault is ruled out

  /** A worker may die at any time, find the campaign's channel closed before its first row, lose
      its database between rows, get any answer from the provider, and fail to record it. */
  lemma AnythingMayHappenToAWorker(s: State, w: nat, reply: Reply, fault: bool)
    requires w < |s.workers|
    ensures var phase := s.workers[w].phase;
            && (phase != Done ==> CanWork(s, w, Crash))
            && (phase == Check || phase == Claim ==> CanWork(s, w, Fault))
            && (phase == Check && s.workers[w].index == 0 ==> CanWork(s, w, OpenFails))
            && (phase.Send? ==> CanWork(s, w, CallProvider(reply)))
            && (phase.WriteSent? || phase.WriteFailed? || phase.PutBack? ==> CanWork(s, w, WriteOutcome(fault)))
  {
  }

  /** A dispatch may die, find no predicate or too large an audience, meet any decision, and take
      any of the claimed rows for stale. */
  lemma AnythingMayHappenToADispatch(s: State, d: nat, decision: RecipientDecision, freed: set<RowId>)
    requires d < |s.dispatchers|
    ensures var me := s.dispatchers[d];
            && (me != Idle ==> CanDispatch(s, d, DispatchCrash))
            && (me == Preparing ==> CanDispatch(s, d, NoPredicate))
            && (me == Materialising ==> CanDispatch(s, d, Overflow))
            && (me == Materialising && decision.Legal() ==> CanDispatch(s, d, Upsert(decision)))
            && (me == Recovering && (forall r :: r in freed ==> r in s.rows && s.rows[r].status == Claimed) ==>
                  CanDispatch(s, d, Recover(freed)))
  {
  }
}
