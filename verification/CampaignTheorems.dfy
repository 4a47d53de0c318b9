/** The campaign protocol's main results, over whole behaviours. */
module CampaignTheorems {
  import opened Options
  import opened CampaignProtocol
  import opened CampaignCounting
  import opened CampaignSafety

  // ---------------------------------------------------------------- claims

  /** A claimed row has at most one live claimant, and it is marked `sending`. */
  lemma ClaimsAreExclusive(tr: seq<State>, ops: seq<Op>, i: nat, v: nat, w: nat, r: RowId)
    requires Fenced(tr, ops) && i < |tr| && v < |tr[i].workers| && w < |tr[i].workers|
    requires tr[i].workers[v].Held() == Some(r) && tr[i].workers[w].Held() == Some(r)
    ensures v == w && r in tr[i].rows && tr[i].rows[r].status == Claimed
  {
    InvAlways(tr, ops, i);
  }

  lemma OnlyWorkRecordsOutcomes(s: State, op: Op, r: RowId)
    requires Can(s, op) && !op.Work? && r in s.rows && r in Step(s, op).rows
    requires Step(s, op).rows[r].status in {Sent, Failed}
    ensures Step(s, op).rows[r] == s.rows[r] || s.rows == map[] || r >= s.nextId
  {
    if op.Dispatch? && op.dop.Upsert? {
      assert r != s.nextId || r >= s.nextId;
    }
  }

  lemma StepOutcomeIsClaimants(s: State, op: Op, r: RowId)
    requires Inv(s) && Can(s, op) && r in s.rows && r in Step(s, op).rows
    requires Step(s, op).rows[r].status in {Sent, Failed} && Step(s, op).rows[r] != s.rows[r]
    ensures op.Work? && op.wop == WriteOutcome(false) && s.workers[op.w].Held() == Some(r)
  {
    if op.Work? {
      WorkTouches(s, op.w, op.wop);
    } else {
      OnlyWorkRecordsOutcomes(s, op, r);
    }
  }

  /** An outcome is written by the one worker holding the row, and by nothing else. */
  lemma OnlyTheClaimantWrites(tr: seq<State>, ops: seq<Op>, i: nat, r: RowId)
    requires Fenced(tr, ops) && i < |ops| && r in tr[i].rows && r in tr[i + 1].rows
    requires tr[i + 1].rows[r].status in {Sent, Failed} && tr[i + 1].rows[r] != tr[i].rows[r]
    ensures ops[i].Work? && ops[i].wop == WriteOutcome(false)
    ensures ops[i].w < |tr[i].workers| && tr[i].workers[ops[i].w].Held() == Some(r)
    ensures forall v :: 0 <= v < |tr[i].workers| && tr[i].workers[v].Held() == Some(r) ==> v == ops[i].w
    ensures tr[i].rows[r].status == Claimed
  {
    InvAlways(tr, ops, i);
    StepOutcomeIsClaimants(tr[i], ops[i], r);
  }

  lemma DispatchLeavesSent(s: State, d: nat, o: DispatchOp, r: RowId)
    requires Orderly(s) && CanDispatch(s, d, o) && r in s.rows && s.rows[r].status == Sent
    ensures r in DispatchStep(s, d, o).rows && DispatchStep(s, d, o).rows[r] == s.rows[r]
  {
    assert PhaseOk(s, s.dispatchers[d]);
    assert r < s.nextId;
  }

  lemma SentStays(s: State, op: Op, r: RowId)
    requires Inv(s) && Can(s, op) && r in s.rows && s.rows[r].status == Sent
    ensures r in Step(s, op).rows && Step(s, op).rows[r] == s.rows[r]
  {
    match op
    case Work(w, o) => WorkTouches(s, w, o);
    case Dispatch(d, o) => DispatchLeavesSent(s, d, o, r);
    case _ =>
  }

  /** A row once `sent` is never rewritten, reclaimed or deleted. */
  lemma {:induction false} SentIsFinal(tr: seq<State>, ops: seq<Op>, i: nat, j: nat, r: RowId)
    requires Fenced(tr, ops) && i <= j < |tr| && r in tr[i].rows && tr[i].rows[r].status == Sent
    ensures r in tr[j].rows && tr[j].rows[r] == tr[i].rows[r]
  {
    if i < j {
      SentIsFinal(tr, ops, i, j - 1, r);
      InvAlways(tr, ops, j - 1);
      SentStays(tr[j - 1], ops[j - 1], r);
    }
  }

  // ---------------------------------------------------------------- counters

  /** No send worker dies with outcomes it has not committed. */
  ghost predicate WorkersSurvive(ops: seq<Op>) {
    forall i :: 0 <= i < |ops| ==> !(ops[i].Work? && ops[i].wop == Crash)
  }

  ghost predicate DispatchesSurvive(ops: seq<Op>) {
    forall i :: 0 <= i < |ops| ==> !(ops[i].Dispatch? && ops[i].dop == DispatchCrash)
  }

  lemma StepLosesNothing(s: State, op: Op)
    requires Can(s, op) && !(op.Work? && op.wop == Crash)
    ensures Step(s, op).lostSent == s.lostSent && Step(s, op).lostFailed == s.lostFailed
  {
    match op
    case Work(w, o) =>
      if o == TryClaim || o.WriteOutcome? {
        assert Step(s, op).lostSent == s.lostSent;
      }
    case _ =>
  }

  lemma {:induction false} NothingLost(tr: seq<State>, ops: seq<Op>, i: nat)
    requires Behaviour(tr, ops) && WorkersSurvive(ops) && i < |tr|
    ensures tr[i].lostSent == 0 && tr[i].lostFailed == 0
  {
    if i > 0 {
      NothingLost(tr, ops, i - 1);
      StepLosesNothing(tr[i - 1], ops[i - 1]);
    }
  }

  /** In every reachable state the committed counters plus the workers' uncommitted
      outcomes are the ledger's own counts, once the audience is recorded its size and
      the skipped counter included. Outcomes lost with dead workers are the only drift. */
  lemma LedgerConservation(tr: seq<State>, ops: seq<Op>, i: nat)
    requires Fenced(tr, ops) && i < |tr|
    ensures var s := tr[i];
            && s.stats.sent + Uncommitted(s.workers, true) + s.lostSent == Tally(s.rows, Sent)
            && s.stats.failed + Uncommitted(s.workers, false) + s.lostFailed == Tally(s.rows, Failed)
            && (s.stats.audienceSize > 0 ==>
                  s.stats.audienceSize == |s.rows| && s.stats.skipped == Tally(s.rows, Skipped))
    ensures WorkersSurvive(ops) ==> tr[i].lostSent == 0 && tr[i].lostFailed == 0
  {
    InvAlways(tr, ops, i);
    if WorkersSurvive(ops) {
      NothingLost(tr, ops, i);
    }
  }

  // ---------------------------------------------------------------- counters, in every interleaving

  /** Every row with an outcome was counted. */
  ghost predicate Covered(s: State) {
    && Tally(s.rows, Sent) <= s.stats.sent + Uncommitted(s.workers, true) + s.lostSent
    && Tally(s.rows, Failed) <= s.stats.failed + Uncommitted(s.workers, false) + s.lostFailed
  }

  ghost predicate UntilLaunched(s: State) {
    s.status in {Draft, Scheduled} ==> s.rows == map[] && s.dispatchers == [] && s.workers == []
  }

  lemma ApiCovers(s: State, a: ApiOp)
    requires Covered(s) && UntilLaunched(s) && CanApi(s, a)
    ensures Covered(ApiStep(s, a))
  {
    match a
    case Launch(_) => assert WithStatus(s.rows, Sent) == {} == WithStatus(s.rows, Failed);
    case Cancel =>
      RetagKeeps(s.rows, Unfinished(s.rows), Skipped, Sent);
      RetagKeeps(s.rows, Unfinished(s.rows), Skipped, Failed);
    case Retry =>
      var failed := WithStatus(s.rows, Failed);
      RetagKeeps(s.rows, failed, Pending, Sent);
      RetagMembers(s.rows, failed, Pending, Failed);
      assert failed - failed == {};
    case _ =>
  }

  /** Setting one row to a status adds at most that row to those with an outcome. */
  lemma OneRowMore(rows: map<RowId, Row>, r: RowId, row: Row, st: RowStatus)
    ensures Tally(rows[r := row], st) <= Tally(rows, st) + If(row.status == st)
  {
    if r in rows {
      TallyUpdate(rows, r, row, st);
    } else {
      TallyInsert(rows, r, row, st);
    }
  }

  lemma DispatchCovers(s: State, d: nat, o: DispatchOp)
    requires Covered(s) && CanDispatch(s, d, o)
    ensures Covered(DispatchStep(s, d, o))
  {
    match o
    case Upsert(decision) =>
      OneRowMore(s.rows, s.nextId, FreshRow(decision), Sent);
      OneRowMore(s.rows, s.nextId, FreshRow(decision), Failed);
    case Recover(freed) =>
      RetagKeeps(s.rows, freed, Pending, Sent);
      RetagKeeps(s.rows, freed, Pending, Failed);
    case Overflow => assert WithStatus(map[], Sent) == {} == WithStatus(map[], Failed);
    case _ =>
  }

  lemma WriteCovers(s: State, w: nat, fault: bool)
    requires Covered(s) && CanWork(s, w, WriteOutcome(fault))
    ensures Covered(WriteStep(s, w, fault))
  {
    var t := WriteStep(s, w, fault);
    var r := s.workers[w].phase.row;
    UncommittedUpdate(s.workers, w, t.workers[w], true);
    UncommittedUpdate(s.workers, w, t.workers[w], false);
    if r in s.rows {
      assert t.rows == s.rows[r := t.rows[r]];
      TallyUpdate(s.rows, r, t.rows[r], Sent);
      TallyUpdate(s.rows, r, t.rows[r], Failed);
    }
  }

  lemma ClaimCovers(s: State, w: nat)
    requires Covered(s) && CanWork(s, w, TryClaim)
    ensures Covered(ClaimStep(s, w))
  {
    var t := ClaimStep(s, w);
    var r := Target(s, w);
    UncommittedUpdate(s.workers, w, t.workers[w], true);
    UncommittedUpdate(s.workers, w, t.workers[w], false);
    if r in s.rows {
      assert t.rows == s.rows[r := t.rows[r]];
      TallyUpdate(s.rows, r, t.rows[r], Sent);
      TallyUpdate(s.rows, r, t.rows[r], Failed);
    }
  }

  lemma StepCovers(s: State, op: Op)
    requires Covered(s) && UntilLaunched(s) && Can(s, op)
    ensures Covered(Step(s, op))
  {
    match op
    case Api(a) => ApiCovers(s, a);
    case Dispatch(d, o) => DispatchCovers(s, d, o);
    case Work(w, WriteOutcome(fault)) => WriteCovers(s, w, fault);
    case Work(w, TryClaim) => ClaimCovers(s, w);
    case Work(w, o) =>
      UncommittedUpdate(s.workers, w, WorkStep(s, w, o).workers[w], true);
      UncommittedUpdate(s.workers, w, WorkStep(s, w, o).workers[w], false);
    case StartBatch(ids, _) =>
      UncommittedAppend(s.workers, Worker(ids, 0, Check, 0, 0), true);
      UncommittedAppend(s.workers, Worker(ids, 0, Check, 0, 0), false);
    case _ =>
  }

  lemma StepStaysUnlaunched(s: State, op: Op)
    requires UntilLaunched(s) && Can(s, op)
    ensures UntilLaunched(Step(s, op))
  {
    match op
    case Work(w, o) => WorkMovesOne(s, w, o);
    case _ =>
  }

  lemma {:induction false} AlwaysCovered(tr: seq<State>, ops: seq<Op>, i: nat)
    requires Behaviour(tr, ops) && i < |tr|
    ensures Covered(tr[i]) && UntilLaunched(tr[i])
  {
    if i == 0 {
      assert WithStatus(tr[0].rows, Sent) == {} == WithStatus(tr[0].rows, Failed);
    } else {
      AlwaysCovered(tr, ops, i - 1);
      StepCovers(tr[i - 1], ops[i - 1]);
      StepStaysUnlaunched(tr[i - 1], ops[i - 1]);
    }
  }

  /** Whatever the scheduling, the counters never fall behind the ledger: they may count a
      row twice, but every row recorded as sent or failed has been counted. */
  lemma CountersNeverLag(tr: seq<State>, ops: seq<Op>, i: nat)
    requires Behaviour(tr, ops) && i < |tr|
    ensures var s := tr[i];
            && Tally(s.rows, Sent) <= s.stats.sent + Uncommitted(s.workers, true) + s.lostSent
            && Tally(s.rows, Failed) <= s.stats.failed + Uncommitted(s.workers, false) + s.lostFailed
    ensures WorkersSurvive(ops) && NothingUncommitted(tr[i]) ==>
              Tally(tr[i].rows, Sent) <= tr[i].stats.sent && Tally(tr[i].rows, Failed) <= tr[i].stats.failed
  {
    AlwaysCovered(tr, ops, i);
    if WorkersSurvive(ops) && NothingUncommitted(tr[i]) {
      NothingLost(tr, ops, i);
      UncommittedNone(tr[i].workers, true);
      UncommittedNone(tr[i].workers, false);
    }
  }

  // ---------------------------------------------------------------- reports

  predicate NothingUncommitted(s: State) {
    forall w :: 0 <= w < |s.workers| ==> s.workers[w].sent == 0 && s.workers[w].failed == 0
  }

  predicate ReportsAll(st: Stats) {
    st.sent + st.failed + st.skipped == st.audienceSize
  }

  predicate NobodyWrites(s: State) {
    forall d :: 0 <= d < |s.dispatchers| ==> !Writing(s.dispatchers[d])
  }

  lemma RecordedAddsUp(s: State)
    requires Inv(s) && s.lostSent == 0 == s.lostFailed && NothingUncommitted(s) && s.stats.audienceSize > 0
    ensures s.stats.sent + s.stats.failed + s.stats.skipped + |Unfinished(s.rows)| == s.stats.audienceSize
  {
    UncommittedNone(s.workers, true);
    UncommittedNone(s.workers, false);
    StatusesPartition(s.rows);
    DisjointSizes(WithStatus(s.rows, Pending), WithStatus(s.rows, Claimed));
  }

  lemma UnrecordedReportsNothing(s: State)
    requires Inv(s) && s.stats.audienceSize == 0
    ensures s.stats.sent == 0 == s.stats.failed && (s.status != Cancelled ==> s.stats.skipped == 0)
  {
    NothingTried(s);
  }

  predicate Filling(d: Dispatcher) {
    d == Materialising || d.Counted?
  }

  /** Without an audience size the ledger is empty, or a dispatch is filling it. */
  ghost predicate Whole(s: State) {
    s.stats.audienceSize == 0 ==>
      s.stats.skipped == 0
      && (s.rows == map[] || exists d :: 0 <= d < |s.dispatchers| && Filling(s.dispatchers[d]))
  }

  lemma CancelFindsNothing(s: State)
    requires Inv(s) && Whole(s) && Fence(s, Api(Cancel)) && s.stats.audienceSize == 0
    ensures Unfinished(s.rows) == {}
  {
    if s.rows != map[] {
      var d :| 0 <= d < |s.dispatchers| && Filling(s.dispatchers[d]);
      assert PhaseOk(s, s.dispatchers[d]);
      CountedSweepsNothing(s, s.dispatchers[d]);
    }
  }

  lemma CancelKeepsWhole(s: State)
    requires Inv(s) && Whole(s) && CanApi(s, Cancel) && Fence(s, Api(Cancel))
    ensures Whole(ApiStep(s, Cancel))
  {
    if s.stats.audienceSize == 0 {
      CancelFindsNothing(s);
      assert Retag(s.rows, {}, Skipped) == s.rows;
    }
  }

  lemma DispatchKeepsWhole(s: State, d: nat, o: DispatchOp)
    requires Inv(s) && Whole(s) && CanDispatch(s, d, o) && o != DispatchCrash
    ensures Whole(DispatchStep(s, d, o))
  {
    var t := DispatchStep(s, d, o);
    assert PhaseOk(s, s.dispatchers[d]);
    if Writing(s.dispatchers[d]) {
      AloneWriting(s, d);
      assert Filling(s.dispatchers[d]) || s.rows == map[];
      assert o.NoPredicate? || o.Overflow? || o.WriteCounts? || Filling(t.dispatchers[d]);
    } else if e :| 0 <= e < |s.dispatchers| && Filling(s.dispatchers[e]) {
      assert Filling(t.dispatchers[e]);
    }
  }

  lemma StepKeepsWhole(s: State, op: Op)
    requires Inv(s) && Whole(s) && Can(s, op) && Fence(s, op) && !(op.Dispatch? && op.dop == DispatchCrash)
    ensures Whole(Step(s, op))
  {
    match op
    case Api(a) =>
      if a == Cancel {
        CancelKeepsWhole(s);
      }
    case Dispatch(d, o) => DispatchKeepsWhole(s, d, o);
    case StartDispatch(replay) =>
      var t := Step(s, op);
      if d :| 0 <= d < |s.dispatchers| && Filling(s.dispatchers[d]) {
        assert Filling(t.dispatchers[d]);
      }
    case Work(_, _) => assert s.stats.audienceSize > 0;
    case _ =>
  }

  lemma {:induction false} WholeAlways(tr: seq<State>, ops: seq<Op>, i: nat)
    requires Fenced(tr, ops) && DispatchesSurvive(ops) && i < |tr|
    ensures Whole(tr[i])
  {
    if i > 0 {
      WholeAlways(tr, ops, i - 1);
      InvAlways(tr, ops, i - 1);
      StepKeepsWhole(tr[i - 1], ops[i - 1]);
    }
  }

  /** When no outcome is in a worker's hands the report adds up to the audience with the
      rows still to do, through any pauses, aborts, cancels and retries: always once the
      audience is recorded, and if nothing crashed also before, while nobody is writing it. */
  lemma ReportAddsUp(tr: seq<State>, ops: seq<Op>, i: nat)
    requires Fenced(tr, ops) && WorkersSurvive(ops) && i < |tr| && NothingUncommitted(tr[i])
    requires tr[i].stats.audienceSize > 0 || (DispatchesSurvive(ops) && NobodyWrites(tr[i]))
    ensures var s := tr[i];
            s.stats.sent + s.stats.failed + s.stats.skipped + |Unfinished(s.rows)| == s.stats.audienceSize
  {
    InvAlways(tr, ops, i);
    NothingLost(tr, ops, i);
    if tr[i].stats.audienceSize > 0 {
      RecordedAddsUp(tr[i]);
    } else {
      WholeAlways(tr, ops, i);
      UnrecordedReportsNothing(tr[i]);
      assert Unfinished(tr[i].rows) == {};
    }
  }

  /** `completed` and `cancelled` both mean that no row is left to do. */
  lemma FinishedMeansDone(tr: seq<State>, ops: seq<Op>, i: nat)
    requires Fenced(tr, ops) && i < |tr| && tr[i].status in {Completed, Cancelled}
    ensures forall r :: r in tr[i].rows ==> tr[i].rows[r].status in {Sent, Failed, Skipped}
  {
    InvAlways(tr, ops, i);
    forall r | r in tr[i].rows ensures tr[i].rows[r].status in {Sent, Failed, Skipped} {
      assert r !in Unfinished(tr[i].rows);
    }
  }

  /** A finished, quiescent campaign: sent + failed + skipped is the audience. A completed
      one needs no hypothesis on dispatches; a cancelled one needs that none has crashed. */
  lemma FinishedReportAddsUp(tr: seq<State>, ops: seq<Op>, i: nat)
    requires Fenced(tr, ops) && WorkersSurvive(ops) && i < |tr| && NothingUncommitted(tr[i])
    requires tr[i].status == Completed || (tr[i].status == Cancelled && DispatchesSurvive(ops))
    ensures ReportsAll(tr[i].stats)
  {
    InvAlways(tr, ops, i);
    NothingLost(tr, ops, i);
    if tr[i].stats.audienceSize > 0 {
      RecordedAddsUp(tr[i]);
    } else {
      UnrecordedReportsNothing(tr[i]);
      if tr[i].status == Cancelled {
        WholeAlways(tr, ops, i);
      }
    }
  }

  /** After dispatches that may have crashed, a cancel leaves a report that adds up if and
      only if the audience had been recorded or no row was left to sweep. */
  lemma CancelReportsExactly(tr: seq<State>, ops: seq<Op>, i: nat)
    requires Fenced(tr, ops) && WorkersSurvive(ops) && i < |ops| && ops[i] == Api(Cancel)
    requires NothingUncommitted(tr[i])
    ensures ReportsAll(tr[i + 1].stats) <==> tr[i].stats.audienceSize > 0 || Unfinished(tr[i].rows) == {}
  {
    InvAlways(tr, ops, i);
    InvAlways(tr, ops, i + 1);
    NothingLost(tr, ops, i + 1);
    assert tr[i + 1] == ApiStep(tr[i], Cancel);
    if tr[i].stats.audienceSize > 0 {
      RecordedAddsUp(tr[i + 1]);
    } else {
      UnrecordedReportsNothing(tr[i]);
      assert tr[i + 1].stats.skipped == |Unfinished(tr[i].rows)|;
    }
  }
}
