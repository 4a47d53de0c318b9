/** What the operator's requests bring about, at once and over the rest of a run: which statuses
    allow them, what they leave of status, queue, rows and counters, and that a stop stops. */
module CampaignRequests {
  import opened Options
  import opened CampaignProtocol
  import opened CampaignCounting
  import Delivery = CampaignDelivery

  // ---------------------------------------------------------------- which requests are accepted

  lemma AcceptedExactly(s: State)
    ensures forall future :: CanApi(s, Launch(future)) <==> s.status == Draft || s.status == Scheduled
    ensures CanApi(s, Promote) <==> s.status == Scheduled
    ensures CanApi(s, Pause) <==> s.status == Sending
    ensures CanApi(s, Resume) <==> s.status == Paused
    ensures CanApi(s, Cancel) <==> s.status == Scheduled || s.status == Sending || s.status == Paused
    ensures CanApi(s, Retry) <==>
              (s.status == Completed || s.status == Paused || s.status == Cancelled)
              && exists r :: r in s.rows && s.rows[r].status == Failed
  {
    if r :| r in s.rows && s.rows[r].status == Failed {
      assert r in WithStatus(s.rows, Failed);
    }
    if r :| r in WithStatus(s.rows, Failed) {
      assert r in s.rows && s.rows[r].status == Failed;
    }
  }

  // ---------------------------------------------------------------- what they leave

  /** Of the two states only status, counters, rows, past and due dispatches may differ. */
  ghost predicate RestKept(s: State, t: State) {
    && t.dispatchers == s.dispatchers && t.jobs == s.jobs && t.workers == s.workers && t.nextId == s.nextId
    && t.lostSent == s.lostSent && t.lostFailed == s.lostFailed
  }

  /** A launch for now sends and has a dispatch due, one for later only arms; counters start at 0. */
  lemma LaunchStarts(s: State, future: bool)
    requires CanApi(s, Launch(future))
    ensures var t := ApiStep(s, Launch(future));
            && RestKept(s, t) && t.rows == s.rows && t.stats == Stats(0, 0, 0, 0, 0)
            && (future ==> t.status == Scheduled && t.dispatchDue == s.dispatchDue)
            && (!future ==> t.status == Sending && t.dispatchDue == s.dispatchDue + 1)
  {
  }

  /** The time having come, or the operator having resumed, one more dispatch is due. */
  lemma PromoteAndResumeSend(s: State, a: ApiOp)
    requires CanApi(s, a) && (a == Promote || a == Resume)
    ensures var t := ApiStep(s, a);
            && RestKept(s, t) && t.rows == s.rows && t.stats == s.stats
            && t.status == Sending && t.dispatchDue == s.dispatchDue + 1
  {
  }

  /** A pause changes the status alone. No batch and no dispatch can start after it. */
  lemma PauseStops(s: State)
    requires CanApi(s, Pause)
    ensures var t := ApiStep(s, Pause);
            && RestKept(s, t) && t.rows == s.rows && t.stats == s.stats && t.dispatchDue == s.dispatchDue
            && t.status == Paused
            && forall op: Op :: op.StartBatch? || op.StartDispatch? ==> !Can(t, op)
  {
  }

  predicate IsUnfinished(row: Row) {
    row.status == Pending || row.status == Claimed
  }

  /** A cancel skips exactly the rows not finished, and counts them as skipped. */
  lemma CancelSkipsTheUnfinished(s: State)
    requires CanApi(s, Cancel)
    ensures var t := ApiStep(s, Cancel);
            && RestKept(s, t) && t.status == Cancelled && t.dispatchDue == s.dispatchDue
            && t.rows.Keys == s.rows.Keys
            && (forall r :: r in s.rows ==>
                  t.rows[r] == if IsUnfinished(s.rows[r]) then s.rows[r].(status := Skipped) else s.rows[r])
            && t.stats == s.stats.(skipped := s.stats.skipped + |set r | r in s.rows && IsUnfinished(s.rows[r])|)
  {
    assert Unfinished(s.rows) == set r | r in s.rows && IsUnfinished(s.rows[r]);
  }

  /** A retry puts exactly the failed rows back, takes them off the counter, and sends again. */
  lemma RetryPutsBackTheFailed(s: State)
    requires CanApi(s, Retry)
    ensures var t := ApiStep(s, Retry);
            && RestKept(s, t) && t.status == Sending && t.dispatchDue == s.dispatchDue + 1
            && t.rows.Keys == s.rows.Keys
            && (forall r :: r in s.rows ==>
                  t.rows[r] == if s.rows[r].status == Failed then s.rows[r].(status := Pending) else s.rows[r])
            && t.stats == s.stats.(failed := s.stats.failed - |set r | r in s.rows && s.rows[r].status == Failed|)
  {
    assert WithStatus(s.rows, Failed) == set r | r in s.rows && s.rows[r].status == Failed;
  }

  // ---------------------------------------------------------------- the status of a run

  /** The requests that set a campaign sending. */
  predicate Restarts(op: Op) {
    op == Api(Launch(false)) || op == Api(Promote) || op == Api(Resume) || op == Api(Retry)
  }

  /** Of a worker's steps only two touch the status. */
  lemma WorkStatus(s: State, w: nat, o: WorkOp)
    requires CanWork(s, w, o)
    ensures WorkStep(s, w, o).status
            == if o == PauseCampaign && s.status == Sending then Paused
               else if o == FinaliseIfDone && s.status == Sending && Unfinished(s.rows) == {} then Completed
               else s.status
  {
    match o
    case TryClaim =>
    case WriteOutcome(_) =>
    case _ =>
  }

  /** Nothing but those requests sets a campaign sending, and each of them does. */
  lemma OnlyRequestsStartSending(s: State, op: Op)
    requires Can(s, op)
    ensures Restarts(op) ==> Step(s, op).status == Sending
    ensures s.status != Sending && Step(s, op).status == Sending ==> Restarts(op)
  {
    if op.Work? {
      WorkStatus(s, op.w, op.wop);
    }
  }

  predicate PausesTheRun(op: Op) {
    (op.Dispatch? && op.dop == PauseRun) || (op.Work? && op.wop == PauseCampaign)
  }

  /** Sending ends by a pause or a cancel, by a run or a worker that stops the campaign, or, with
      no row left to do, by completion. */
  lemma SendingEndsOnlySo(s: State, op: Op)
    requires Can(s, op) && s.status == Sending && Step(s, op).status != Sending
    ensures var t := Step(s, op);
            || (t.status == Paused && (op == Api(Pause) || PausesTheRun(op)))
            || (t.status == Cancelled && op == Api(Cancel))
            || (t.status == Completed && forall r :: r in s.rows ==> !IsUnfinished(s.rows[r]))
  {
    FinishedIsDone(s.rows);
    match op
    case Work(w, o) => WorkStatus(s, w, o);
    case Dispatch(d, o) => DispatchStatus(s, d, o);
    case Api(_) =>
    case _ =>
  }

  lemma DispatchStatus(s: State, d: nat, o: DispatchOp)
    requires CanDispatch(s, d, o)
    ensures DispatchStep(s, d, o).status
            == if o == PauseRun && s.status == Sending then Paused
               else if o == Finish && s.dispatchers[d].queued == 0 && s.status == Sending && Unfinished(s.rows) == {}
               then Completed else s.status
  {
  }

  lemma FinishedIsDone(rows: map<RowId, Row>)
    ensures Unfinished(rows) == {} <==> forall r :: r in rows ==> !IsUnfinished(rows[r])
  {
    if Unfinished(rows) == {} {
      forall r | r in rows ensures !IsUnfinished(rows[r]) {
        assert r !in Unfinished(rows);
      }
    }
  }

  /** A worker or a run that stops the campaign pauses it if it is sending, and a dispatch with
      nothing to queue or a batch that has ended completes it if nothing is left to do. */
  lemma StopsAndCompletes(s: State, op: Op)
    requires Can(s, op)
    ensures (op.Dispatch? && op.dop == PauseRun) || (op.Work? && op.wop == PauseCampaign) ==>
              Step(s, op).status == if s.status == Sending then Paused else s.status
    ensures (op.Work? && op.wop == FinaliseIfDone)
            || (op.Dispatch? && op.dop == Finish && s.dispatchers[op.d].queued == 0) ==>
              (Step(s, op).status == Completed && s.status != Completed <==>
                 s.status == Sending && forall r :: r in s.rows ==> !IsUnfinished(s.rows[r]))
  {
    FinishedIsDone(s.rows);
  }

  lemma {:induction false} StaysStopped(tr: seq<State>, ops: seq<Op>, i: nat, j: nat)
    requires Behaviour(tr, ops) && i <= j < |tr| && tr[i].status != Sending
    requires forall m {:trigger ops[m]} :: i <= m < j ==> !Restarts(ops[m])
    ensures tr[j].status != Sending
  {
    if i < j {
      StaysStopped(tr, ops, i, j - 1);
      OnlyRequestsStartSending(tr[j - 1], ops[j - 1]);
    }
  }

  lemma StoppedStartsNothing(tr: seq<State>, ops: seq<Op>, m: nat)
    requires Behaviour(tr, ops) && m < |ops| && tr[m].status != Sending
    ensures !ops[m].StartBatch? && !ops[m].StartDispatch?
  {
  }

  lemma StopsSending(tr: seq<State>, ops: seq<Op>, i: nat)
    requires Behaviour(tr, ops) && i < |ops| && (ops[i] == Api(Pause) || ops[i] == Api(Cancel))
    ensures tr[i + 1].status != Sending
  {
  }

  /** After a pause or a cancel, until a request sets the campaign sending again, it stays out of
      `sending`, no batch and no dispatch starts, and each worker in flight makes at most 20
      more provider calls. */
  lemma PausedStaysPaused(tr: seq<State>, ops: seq<Op>, i: nat, j: nat, w: nat)
    requires Behaviour(tr, ops) && i < j < |tr| && (ops[i] == Api(Pause) || ops[i] == Api(Cancel))
    requires forall m {:trigger ops[m]} :: i < m < j ==> !Restarts(ops[m])
    requires w < |tr[i + 1].workers|
    ensures tr[j].status != Sending
    ensures |tr[j].workers| == |tr[i + 1].workers|
    ensures forall m {:trigger ops[m]} :: i < m < j ==> !ops[m].StartBatch? && !ops[m].StartDispatch?
    ensures Delivery.CallsBetween(ops, i + 1, j, w) <= 20
  {
    StopsSending(tr, ops, i);
    forall m | i + 1 <= m <= j ensures tr[m].status != Sending {
      StaysStopped(tr, ops, i + 1, m);
    }
    forall m {:trigger ops[m]} | i < m < j ensures !ops[m].StartBatch? && !ops[m].StartDispatch? {
      StoppedStartsNothing(tr, ops, m);
    }
    Delivery.PauseLatency(tr, ops, i + 1, j, w);
  }

  // ---------------------------------------------------------------- one recipient, undisturbed

  /** What becomes of the row a worker claims, by the provider's answer. */
  function Fate(reply: Reply): RowStatus {
    match reply
    case Accepted => Sent
    case Rejected => Failed
    case Fatal => Pending
  }

  /** Claimed, sent and recorded with nothing in between, a row ends as the provider answered,
      tried once more than before; an outcome is counted and the worker goes on to the next row,
      and an answer that is fatal stops the campaign, its row pending again. */
  lemma RowEndsAsAnswered(s: State, w: nat, reply: Reply)
    requires CanWork(s, w, TryClaim)
    requires var k := s.workers[w]; var r := k.ids[k.index];
             r in s.rows && s.rows[r].status == Pending && HasDestination(s.rows[r])
    ensures var k := s.workers[w];
            var r := k.ids[k.index];
            var claimed := WorkStep(s, w, TryClaim);
            && CanWork(claimed, w, CallProvider(reply))
            && var sent := WorkStep(claimed, w, CallProvider(reply));
               && CanWork(sent, w, WriteOutcome(false))
               && var t := WorkStep(sent, w, WriteOutcome(false));
                  && t.rows == s.rows[r := s.rows[r].(status := Fate(reply), attempts := s.rows[r].attempts + 1)]
                  && t.workers[w] == (match reply
                                      case Accepted => k.(index := k.index + 1, phase := Check, sent := k.sent + 1)
                                      case Rejected => k.(index := k.index + 1, phase := Check, failed := k.failed + 1)
                                      case Fatal => k.(phase := Abort(true)))
                  && (reply == Fatal ==>
                        && CanWork(t, w, PauseCampaign)
                        && WorkStep(t, w, PauseCampaign).status == if s.status == Sending then Paused else s.status)
  {
  }
}
