/** The scheduling hypotheses of `Fence` are exactly what the guarantees need: whatever
    step they exclude, some later allowed steps lead to a broken claim, counter or status. */
module CampaignFence {
  import opened Options
  import opened Audience
  import opened CampaignProtocol
  import opened CampaignCounting
  import Delivery = CampaignDelivery
  import opened CampaignSafety
  import opened CampaignTheorems

  // ---------------------------------------------------------------- what may follow a state

  /** What the guarantees promise of a state, with no word on scheduling. */
  ghost predicate Sound(s: State) {
    Apart(s) && Books(s) && Settled(s)
  }

  ghost predicate FencedFrom(s: State, tr: seq<State>, ops: seq<Op>) {
    && |tr| == |ops| + 1 && tr[0] == s
    && forall i {:trigger ops[i]} :: 0 <= i < |ops| ==>
         Can(tr[i], ops[i]) && Fence(tr[i], ops[i]) && tr[i + 1] == Step(tr[i], ops[i])
  }

  /** Every allowed continuation stays sound. */
  ghost predicate SafeFrom(s: State) {
    forall tr, ops :: FencedFrom(s, tr, ops) ==> Sound(tr[|ops|])
  }

  ghost predicate Leads(s: State, t: State) {
    exists tr, ops :: FencedFrom(s, tr, ops) && tr[|ops|] == t
  }

  lemma LeadsNowhere(s: State)
    ensures Leads(s, s)
  {
    assert FencedFrom(s, [s], []);
  }

  lemma LeadsOn(s: State, t: State, op: Op) returns (u: State)
    requires Leads(s, t) && Can(t, op) && Fence(t, op)
    ensures u == Step(t, op) && Leads(s, u)
  {
    u := Step(t, op);
    var tr, ops :| FencedFrom(s, tr, ops) && tr[|ops|] == t;
    var tr2, ops2 := tr + [u], ops + [op];
    forall i {:trigger ops2[i]} | 0 <= i < |ops2|
      ensures Can(tr2[i], ops2[i]) && Fence(tr2[i], ops2[i]) && tr2[i + 1] == Step(tr2[i], ops2[i])
    {
      if i < |ops| {
        assert ops2[i] == ops[i];
      }
    }
    assert FencedFrom(s, tr2, ops2) && tr2[|ops2|] == u;
  }

  lemma {:induction false} InvFrom(s: State, tr: seq<State>, ops: seq<Op>, i: nat)
    requires Inv(s) && FencedFrom(s, tr, ops) && i < |tr|
    ensures Inv(tr[i])
  {
    if i > 0 {
      InvFrom(s, tr, ops, i - 1);
      StepKeeps(tr[i - 1], ops[i - 1]);
    }
  }

  lemma LeadsToBroken(s: State, t: State)
    requires Leads(s, t) && !Sound(t)
    ensures !SafeFrom(s)
  {
    var tr, ops :| FencedFrom(s, tr, ops) && tr[|ops|] == t;
    assert !Sound(tr[|ops|]);
  }

  // ---------------------------------------------------------------- a second writer

  /** Some contact not yet in the ledger. */
  lemma {:induction false} BeyondAll(rows: map<RowId, Row>, ids: set<RowId>) returns (c: ContactId)
    requires ids <= rows.Keys
    ensures forall r :: r in ids ==> rows[r].contact < c
    decreases |ids|
  {
    if ids == {} {
      c := 0;
    } else {
      var r :| r in ids;
      c := BeyondAll(rows, ids - {r});
      if c <= rows[r].contact {
        c := rows[r].contact + 1;
      }
    }
  }

  /** A new contact with an address, as the audience query may always still yield one. */
  lemma Newcomer(s: State) returns (d: RecipientDecision)
    ensures d.Legal() && d.skipReason.None? && !HasContact(s.rows, d.contactId)
  {
    var c := BeyondAll(s.rows, s.rows.Keys);
    d := RecipientDecision(c, Some("new@example.com"), None);
  }

  /** A state from which two dispatches, `d` and `e`, still go on. */
  ghost predicate Beside(s: State, d: nat, e: nat) {
    && d < |s.dispatchers| && e < |s.dispatchers| && d != e && s.dispatchers[e] == Materialising
    && forall r :: r in s.rows ==> r < s.nextId
  }

  /** The one that still writes adds a row to a ledger already counted. */
  lemma LateRowBreaks(s: State, t: State, d: nat, e: nat)
    requires Leads(s, t) && Beside(t, d, e) && t.stats.audienceSize == |t.rows| > 0
    ensures !SafeFrom(s)
  {
    var late := Newcomer(t);
    var u := LeadsOn(s, t, Dispatch(e, Upsert(late)));
    TallyInsert(t.rows, t.nextId, FreshRow(late), Sent);
    assert |u.rows| == |t.rows| + 1;
    LeadsToBroken(s, u);
  }

  lemma CountedBesideBreaks(s: State, t: State, d: nat, e: nat)
    requires Leads(s, t) && Beside(t, d, e) && t.dispatchers[d].Counted? && t.dispatchers[d].size == |t.rows| > 0
    ensures !SafeFrom(s)
  {
    var u := LeadsOn(s, t, Dispatch(d, WriteCounts));
    LateRowBreaks(s, u, d, e);
  }

  lemma WritingBesideBreaks(s: State, t: State, d: nat, e: nat)
    requires Leads(s, t) && Beside(t, d, e) && t.dispatchers[d] == Materialising
    ensures !SafeFrom(s)
  {
    var first := Newcomer(t);
    TallyInsert(t.rows, t.nextId, FreshRow(first), Sent);
    var u := LeadsOn(s, t, Dispatch(d, Upsert(first)));
    var v := LeadsOn(s, u, Dispatch(d, Count));
    CountedBesideBreaks(s, v, d, e);
  }

  /** Nothing recorded, nothing in the ledger, nobody sending yet. */
  ghost predicate Blank(s: State) {
    && s.status == Sending && s.stats.audienceSize == 0 && s.stats.skipped == 0
    && s.rows == map[] && s.jobs == multiset{} && s.workers == []
  }

  /** A worker has claimed the ledger's only row, and `e` has not counted it yet. */
  lemma ClaimedBesideBreaks(s: State, t: State, d: nat, e: nat, id: RowId)
    requires Leads(s, t) && Beside(t, d, e) && t.stats.skipped == 0
    requires id in t.rows && t.rows.Keys == {id} && t.rows[id].status == Claimed
    ensures !SafeFrom(s)
  {
    assert WithStatus(t.rows, Pending) == {} && WithStatus(t.rows, Skipped) == {};
    assert |t.rows| == |t.rows.Keys| == 1;
    var u := LeadsOn(s, t, Dispatch(e, Count));
    var v := LeadsOn(s, u, Dispatch(e, WriteCounts));
    assert v.stats.audienceSize == 1 && v.stats.skipped == 1;
    LeadsToBroken(s, v);
  }

  lemma QueuedBesideBreaks(s: State, t: State, d: nat, e: nat, id: RowId)
    requires Leads(s, t) && Beside(t, d, e) && t.status == Sending && t.stats.skipped == 0 && t.workers == []
    requires t.rows.Keys == {id} && t.rows[id].status == Pending && HasDestination(t.rows[id]) && [id] in t.jobs
    ensures !SafeFrom(s)
  {
    var u := LeadsOn(s, t, StartBatch([id], false));
    var v := LeadsOn(s, u, Work(0, Look));
    var x := LeadsOn(s, v, Work(0, TryClaim));
    assert x.rows.Keys == {id} && x.rows[id].status == Claimed;
    ClaimedBesideBreaks(s, x, d, e, id);
  }

  lemma QueueingBesideBreaks(s: State, t: State, d: nat, e: nat)
    requires Leads(s, t) && Beside(t, d, e) && Blank(t)
    requires t.dispatchers[d].Queueing? && t.dispatchers[d].from <= t.nextId
    ensures !SafeFrom(s)
  {
    var new1 := Newcomer(t);
    var id := t.nextId;
    var u := LeadsOn(s, t, Dispatch(e, Upsert(new1)));
    assert u.rows == map[id := FreshRow(new1)];
    var v := LeadsOn(s, u, Dispatch(d, Enqueue([id])));
    QueuedBesideBreaks(s, v, d, e, id);
  }

  lemma RecoveringBesideBreaks(s: State, t: State, d: nat, e: nat)
    requires Leads(s, t) && Beside(t, d, e) && Blank(t) && t.dispatchers[d] == Recovering
    ensures !SafeFrom(s)
  {
    var u := LeadsOn(s, t, Dispatch(d, Recover({})));
    assert u.rows == map[];
    QueueingBesideBreaks(s, u, d, e);
  }

  // ---------------------------------------------------------------- each excluded step breaks something

  /** Two dispatches that may both write the audience, the second just started. */
  lemma SecondWriterBreaks(s: State, t: State, d: nat, e: nat)
    requires Leads(s, t) && Beside(t, d, e) && Active(t.dispatchers[d])
    requires t.status == Sending && t.stats.audienceSize == 0 && Inv(t.(dispatchers := t.dispatchers[e := Idle]))
    ensures !SafeFrom(s)
  {
    var alone := t.(dispatchers := t.dispatchers[e := Idle]);
    assert PhaseOk(alone, alone.dispatchers[d]);
    match t.dispatchers[d]
    case Preparing =>
      var u := LeadsOn(s, t, Dispatch(d, OpenCursor));
      WritingBesideBreaks(s, u, d, e);
    case Materialising => WritingBesideBreaks(s, t, d, e);
    case Counted(size, _) =>
      if size > 0 {
        CountedBesideBreaks(s, t, d, e);
      } else {
        EmptyCountBesideBreaks(s, t, d, e);
      }
    case Recovering => RecoveringBesideBreaks(s, t, d, e);
    case Queueing(_, _) => QueueingBesideBreaks(s, t, d, e);
  }

  lemma EmptyCountBesideBreaks(s: State, t: State, d: nat, e: nat)
    requires Leads(s, t) && Beside(t, d, e) && t.dispatchers[d].Counted? && t.dispatchers[d] == Counted(|t.rows|, 0)
    requires |t.rows| == 0 && t.status == Sending && t.jobs == multiset{} && t.workers == []
    ensures !SafeFrom(s)
  {
    var u := LeadsOn(s, t, Dispatch(d, WriteCounts));
    assert u.rows == map[];
    RecoveringBesideBreaks(s, u, d, e);
  }

  lemma UnfencedStartBreaks(s: State, replay: bool)
    requires Inv(s) && Can(s, StartDispatch(replay)) && !Fence(s, StartDispatch(replay))
    ensures !SafeFrom(Step(s, StartDispatch(replay)))
  {
    var t := Step(s, StartDispatch(replay));
    var d :| 0 <= d < |s.dispatchers| && Active(s.dispatchers[d]);
    var e := |s.dispatchers|;
    LeadsNowhere(t);
    var u := LeadsOn(t, t, Dispatch(e, OpenCursor));
    var alone := u.(dispatchers := u.dispatchers[e := Idle]);
    IdleBesideKeeps(s, alone);
    SecondWriterBreaks(t, u, d, e);
  }

  lemma IdleBesideKeeps(s: State, t: State)
    requires Inv(s) && s.status == Sending
    requires t == s.(dispatchers := s.dispatchers + [Idle], dispatchDue := t.dispatchDue)
    ensures Inv(t)
  {
    forall d | 0 <= d < |t.dispatchers| ensures PhaseOk(t, t.dispatchers[d]) {
      if d < |s.dispatchers| {
        assert PhaseOk(s, s.dispatchers[d]);
      }
    }
    SameClaims(s, t);
  }

  // ---------------------------------------------------------------- a claim freed under its holder

  /** Worker `w` works on row `r`, which the ledger offers to anyone. */
  ghost predicate Loose(s: State, w: nat, r: RowId) {
    && s.status == Sending && w < |s.workers| && s.workers[w].Held() == Some(r)
    && r in s.rows && s.rows[r].status == Pending && HasDestination(s.rows[r])
  }

  /** The next job of a dispatch: pending rows in id order, short only if none is left below `end`. */
  function NextJob(rows: map<RowId, Row>, from: RowId, size: nat, end: RowId): (ids: seq<RowId>)
    ensures |ids| <= size && Ascending(ids)
    ensures forall r :: r in ids ==> from <= r < end && r in rows && rows[r].status == Pending
    ensures forall r :: r in rows && rows[r].status == Pending && from <= r < end ==>
              r in ids || (|ids| == size && forall q :: q in ids ==> q < r)
    decreases end - from
  {
    if size == 0 || from >= end then []
    else if from in rows && rows[from].status == Pending then
      var rest := NextJob(rows, from + 1, size - 1, end);
      assert forall i :: 0 <= i < |rest| ==> rest[i] in rest;
      [from] + rest
    else NextJob(rows, from + 1, size, end)
  }

  /** Worker `v` is at the head of its loop, with row `r` still before it. */
  ghost predicate Ahead(s: State, v: nat, r: RowId) {
    && v < |s.workers|
    && var k := s.workers[v];
       k.phase == Check && k.index < |k.ids| && Ascending(k.ids) && r in k.ids[k.index..]
  }

  lemma Tries(s: State, t: State, v: nat, w: nat, r: RowId) returns (u: State)
    requires Leads(s, t) && Loose(t, w, r) && Ahead(t, v, r) && v != w
    ensures Leads(s, u) && CanWork(t, v, Look)
    ensures var looked := t.(workers := t.workers[v := t.workers[v].(phase := Claim)]); u == ClaimStep(looked, v)
  {
    u := LeadsOn(s, t, Work(v, Look));
    assert u == t.(workers := t.workers[v := t.workers[v].(phase := Claim)]);
    u := LeadsOn(s, u, Work(v, TryClaim));
  }

  lemma Sends(s: State, t: State, v: nat, q: RowId) returns (u: State)
    requires Leads(s, t) && v < |t.workers| && t.workers[v].phase == Send(q)
    ensures Leads(s, u)
    ensures var k := t.workers[v];
            u == t.(rows := Mark(t.rows, q, Sent), past := NoteSend(t.past, q),
                    workers := t.workers[v := k.Next().(sent := k.sent + 1)])
  {
    u := LeadsOn(s, t, Work(v, CallProvider(Accepted)));
    u := LeadsOn(s, u, Work(v, WriteOutcome(false)));
  }

  /** It deals with the row before it, one other than `r`, and is at the head of its loop again. */
  lemma PassesOn(s: State, t: State, v: nat, w: nat, r: RowId) returns (u: State)
    requires Leads(s, t) && Loose(t, w, r) && Ahead(t, v, r) && v != w
    requires t.workers[v].ids[t.workers[v].index] != r
    ensures Leads(s, u) && Loose(u, w, r) && |u.workers| == |t.workers|
    ensures var k := t.workers[v]; u.workers[v] == k.(index := k.index + 1, sent := u.workers[v].sent)
  {
    u := Tries(s, t, v, w, r);
    if u.workers[v].phase.Send? {
      u := Sends(s, u, v, t.workers[v].ids[t.workers[v].index]);
    }
  }

  /** The worker of a job reaches the row another one still holds, and claims it as well. */
  lemma {:induction false} SecondClaimBreaks(s: State, t: State, v: nat, w: nat, r: RowId)
    requires Leads(s, t) && Loose(t, w, r) && Ahead(t, v, r) && v != w
    ensures !SafeFrom(s)
    decreases |t.workers[v].ids| - t.workers[v].index
  {
    var k := t.workers[v];
    if k.ids[k.index] == r {
      var u := Tries(s, t, v, w, r);
      assert u.workers[v].Held() == u.workers[w].Held() == Some(r);
      LeadsToBroken(s, u);
    } else {
      var u := PassesOn(s, t, v, w, r);
      assert k.ids[k.index..] == [k.ids[k.index]] + k.ids[k.index + 1..];
      SecondClaimBreaks(s, u, v, w, r);
    }
  }

  /** A dispatch that still queues comes to the freed row, if only after some full jobs. */
  lemma {:induction false} QueuedAgainBreaks(s: State, t: State, d: nat, w: nat, r: RowId)
    requires Leads(s, t) && Loose(t, w, r) && d < |t.dispatchers| && t.dispatchers[d].Queueing?
    requires t.dispatchers[d].from <= r < t.nextId
    ensures !SafeFrom(s)
    decreases r - t.dispatchers[d].from
  {
    var ids := NextJob(t.rows, t.dispatchers[d].from, SEND_BATCH_SIZE, t.nextId);
    assert ids[0] in ids && ids[|ids| - 1] in ids;
    var u := LeadsOn(s, t, Dispatch(d, Enqueue(ids)));
    if r in ids {
      var x := LeadsOn(s, u, StartBatch(ids, false));
      assert ids[0..] == ids;
      SecondClaimBreaks(s, x, |u.workers|, w, r);
    } else {
      QueuedAgainBreaks(s, u, d, w, r);
    }
  }

  lemma HeldHasDestination(s: State, w: nat, r: RowId)
    requires Delivery.Inv(s) && w < |s.workers| && s.workers[w].Held() == Some(r) && r in s.rows
    ensures HasDestination(s.rows[r]) && r < s.nextId
  {
    assert Delivery.RowOk(s, r);
  }

  lemma NotOverYet(s: State, d: nat, r: RowId)
    requires Orderly(s) && Settled(s) && d < |s.dispatchers| && s.dispatchers[d] != Idle
    requires r in s.rows && s.rows[r].status == Claimed
    ensures s.status == Sending || s.status == Paused
  {
    assert r in Unfinished(s.rows);
    match s.status
    case Sending =>
    case Paused =>
    case _ =>
  }

  /** A claim freed under a worker that still works on it is claimed a second time. */
  lemma UnfencedRecoverBreaks(s: State, d: nat, freed: set<RowId>)
    requires Inv(s) && Delivery.Inv(s) && CanDispatch(s, d, Recover(freed)) && !Fence(s, Dispatch(d, Recover(freed)))
    ensures !SafeFrom(DispatchStep(s, d, Recover(freed)))
  {
    var t := DispatchStep(s, d, Recover(freed));
    var r :| r in freed && Holds(s, r);
    var w :| 0 <= w < |s.workers| && s.workers[w].Held() == Some(r);
    HeldHasDestination(s, w, r);
    NotOverYet(s, d, r);
    LeadsNowhere(t);
    if t.status == Paused {
      var u := LeadsOn(t, t, Api(Resume));
      QueuedAgainBreaks(t, u, d, w, r);
    } else {
      QueuedAgainBreaks(t, t, d, w, r);
    }
  }

  // ---------------------------------------------------------------- a cancel at the wrong time

  /** The worker's late write takes its row out of the rows the cancel counted as skipped. */
  lemma LateWriteBreaks(s: State, t: State, w: nat)
    requires Leads(s, t) && Books(t) && t.stats.audienceSize > 0 && w < |t.workers|
    requires t.workers[w].phase.WriteSent? || t.workers[w].phase.WriteFailed? || t.workers[w].phase.PutBack?
    requires var r := t.workers[w].phase.row; r in t.rows && t.rows[r].status == Skipped
    ensures !SafeFrom(s)
  {
    var r := t.workers[w].phase.row;
    var u := LeadsOn(s, t, Work(w, WriteOutcome(false)));
    TallyUpdate(t.rows, r, u.rows[r], Skipped);
    assert u.rows == t.rows[r := u.rows[r]];
    LeadsToBroken(s, u);
  }

  lemma CancelWhileHeldBreaks(s: State, r: RowId)
    requires Inv(s) && CanApi(s, Cancel) && r in s.rows && Holds(s, r)
    ensures !SafeFrom(ApiStep(s, Cancel))
  {
    var t := ApiStep(s, Cancel);
    var w :| 0 <= w < |s.workers| && s.workers[w].Held() == Some(r);
    assert r in Unfinished(s.rows);
    CancelKeepsBooks(s);
    LeadsNowhere(t);
    if t.workers[w].phase.Send? {
      var u := LeadsOn(t, t, Work(w, CallProvider(Accepted)));
      UncommittedUpdate(t.workers, w, u.workers[w], true);
      UncommittedUpdate(t.workers, w, u.workers[w], false);
      LateWriteBreaks(t, u, w);
    } else {
      LateWriteBreaks(t, t, w);
    }
  }

  /** A row written after the cancel's sweep stays pending for ever. */
  lemma RowAfterCancelBreaks(s: State, t: State, d: nat)
    requires Leads(s, t) && t.status == Cancelled && d < |t.dispatchers| && t.dispatchers[d] == Materialising
    ensures !SafeFrom(s)
  {
    var late := Newcomer(t);
    var u := LeadsOn(s, t, Dispatch(d, Upsert(late)));
    assert t.nextId in Unfinished(u.rows);
    LeadsToBroken(s, u);
  }

  /** With the audience still unrecorded, a cancel leaves every row skipped. */
  lemma CancelSkipsAll(s: State)
    requires Inv(s) && CanApi(s, Cancel) && s.stats.audienceSize == 0
    ensures Tally(ApiStep(s, Cancel).rows, Skipped) == |s.rows|
  {
    StatusesPartition(s.rows);
    NothingTried(s);
    DisjointSizes(WithStatus(s.rows, Pending), WithStatus(s.rows, Claimed));
    RetagTallies(s.rows, Unfinished(s.rows), Skipped);
  }

  /** Counts taken before the cancel's sweep and written after it report too few skipped. */
  lemma CountsAfterCancelBreak(s: State, d: nat)
    requires Inv(s) && CanApi(s, Cancel) && d < |s.dispatchers|
    requires s.dispatchers[d].Counted? && s.dispatchers[d].sendable > 0
    ensures !SafeFrom(ApiStep(s, Cancel))
  {
    var t := ApiStep(s, Cancel);
    assert PhaseOk(s, s.dispatchers[d]);
    CancelSkipsAll(s);
    LeadsNowhere(t);
    var u := LeadsOn(t, t, Dispatch(d, WriteCounts));
    SomePendingSomeRows(s.rows);
    assert u.stats.audienceSize > 0 && u.stats.skipped < |s.rows| == Tally(u.rows, Skipped);
    LeadsToBroken(t, u);
  }

  lemma SomePendingSomeRows(rows: map<RowId, Row>)
    ensures Tally(rows, Pending) <= |rows|
  {
    StatusesPartition(rows);
  }

  lemma UnfencedCancelBreaks(s: State)
    requires Inv(s) && CanApi(s, Cancel) && !Fence(s, Api(Cancel))
    ensures !SafeFrom(ApiStep(s, Cancel))
  {
    var t := ApiStep(s, Cancel);
    if r :| r in s.rows && Holds(s, r) {
      CancelWhileHeldBreaks(s, r);
    } else {
      var d :| 0 <= d < |s.dispatchers| && MidAudience(s.dispatchers[d]);
      LeadsNowhere(t);
      match s.dispatchers[d]
      case Preparing =>
        var u := LeadsOn(t, t, Dispatch(d, OpenCursor));
        RowAfterCancelBreaks(t, u, d);
      case Materialising => RowAfterCancelBreaks(t, t, d);
      case Counted(_, _) => CountsAfterCancelBreak(s, d);
    }
  }

  /** In any run so far allowed, the next step is safe, whatever allowed steps follow it, if
      and only if the scheduling hypothesis holds for it. No weaker hypothesis will do, and
      no stronger one is needed. */
  lemma {:induction false} FenceIsExact(tr: seq<State>, ops: seq<Op>, op: Op)
    requires Fenced(tr, ops) && Can(tr[|ops|], op)
    ensures Fence(tr[|ops|], op) <==> SafeFrom(Step(tr[|ops|], op))
  {
    var s := tr[|ops|];
    InvAlways(tr, ops, |ops|);
    Delivery.InvAlways(tr, ops, |ops|);
    if Fence(s, op) {
      StepKeeps(s, op);
      forall tr2, ops2 | FencedFrom(Step(s, op), tr2, ops2) ensures Sound(tr2[|ops2|]) {
        InvFrom(Step(s, op), tr2, ops2, |ops2|);
      }
      return;
    }
    match op
    case StartDispatch(replay) => UnfencedStartBreaks(s, replay);
    case Dispatch(d, Recover(freed)) => UnfencedRecoverBreaks(s, d, freed);
    case Api(Cancel) => UnfencedCancelBreaks(s);
  }

  // ---------------------------------------------------------------- what goes wrong, from the start

  ghost predicate Reachable(s: State) {
    exists tr, ops :: Reached(tr, ops, s)
  }

  lemma Extend(s: State, op: Op) returns (t: State)
    requires Reachable(s) && Can(s, op)
    ensures t == Step(s, op) && Reachable(t)
  {
    t := Step(s, op);
    var tr, ops :| Reached(tr, ops, s);
    ReachOn(tr, ops, s, op);
  }

  const ANN := RecipientDecision(7, Some("ann@example.com"), None)

  lemma Launched() returns (s: State)
    ensures Reachable(s)
    ensures s == INIT.(status := Sending, dispatchDue := 1)
  {
    assert Reached([INIT], [], INIT);
    s := Extend(INIT, Api(Launch(false)));
  }

  function AnnRow(st: RowStatus, attempts: nat): Row {
    Row(7, Some("ann@example.com"), st, attempts)
  }

  /** The states of a campaign with one recipient, materialised by dispatch 0, with perhaps
      a second dispatch already writing the same audience. */
  function OneRecipient(row: Row, past: Past, first: Dispatcher, extra: bool, jobs: multiset<seq<RowId>>): State {
    State(Sending, Stats(1, 1, 0, 0, 0), map[0 := row], 1, map[0 := past], 0,
          if extra then [first, Materialising] else [first], jobs, [], 0, 0)
  }

  lemma Written(extra: bool) returns (s: State)
    ensures Reachable(s)
    ensures s == OneRecipient(AnnRow(Pending, 0), Past(false, 0, 0, 0), Materialising, extra, multiset{})
                 .(stats := NO_STATS)
  {
    s := Launched();
    s := Extend(s, StartDispatch(false));
    s := Extend(s, Dispatch(0, OpenCursor));
    if extra {
      s := Extend(s, StartDispatch(true));
      s := Extend(s, Dispatch(1, OpenCursor));
    }
    s := Extend(s, Dispatch(0, Upsert(ANN)));
  }

  lemma Materialised(extra: bool) returns (s: State)
    ensures Reachable(s)
    ensures s == OneRecipient(AnnRow(Pending, 0), Past(false, 0, 0, 0), Recovering, extra, multiset{})
  {
    s := Written(extra);
    assert WithStatus(s.rows, Pending) == {0};
    s := Extend(s, Dispatch(0, Count));
    s := Extend(s, Dispatch(0, WriteCounts));
  }

  lemma Recovered(extra: bool) returns (s: State)
    ensures Reachable(s)
    ensures s == OneRecipient(AnnRow(Pending, 0), Past(false, 0, 0, 0), Queueing(0, 0), extra, multiset{})
  {
    s := Materialised(extra);
    s := Extend(s, Dispatch(0, Recover({})));
    assert s.rows == map[0 := AnnRow(Pending, 0)] && s.past == map[0 := Past(false, 0, 0, 0)];
  }

  lemma Queued(extra: bool) returns (s: State)
    ensures Reachable(s)
    ensures s == OneRecipient(AnnRow(Pending, 0), Past(false, 0, 0, 0), Idle, extra, multiset{[0]})
  {
    s := Recovered(extra);
    s := Extend(s, Dispatch(0, Enqueue([0])));
    s := Extend(s, Dispatch(0, Finish));
  }

  /** A worker has claimed the row and is about to call the provider. */
  lemma AboutToSend(extra: bool) returns (s: State)
    ensures Reachable(s)
    ensures s == OneRecipient(AnnRow(Claimed, 1), Past(false, 1, 0, 0), Idle, extra, multiset{})
                 .(workers := [Worker([0], 0, Send(0), 0, 0)])
  {
    s := Queued(extra);
    s := Extend(s, StartBatch([0], false));
    s := Extend(s, Work(0, Look));
    s := Extend(s, Work(0, TryClaim));
  }

  /** Worker `w` sends, records and commits the one row it holds. */
  lemma Deliver(before: State, w: nat) returns (s: State)
    requires Reachable(before) && w < |before.workers| && before.workers[w] == Worker([0], 0, Send(0), 0, 0)
    requires 0 in before.rows && 0 in before.past
    ensures Reachable(s)
    ensures s == before.(workers := before.workers[w := Worker([0], 1, Finalise, 0, 0)],
                         stats := before.stats.(sent := before.stats.sent + 1),
                         rows := Mark(before.rows, 0, Sent), past := NoteSend(before.past, 0))
  {
    s := Extend(before, Work(w, CallProvider(Accepted)));
    s := Extend(s, Work(w, WriteOutcome(false)));
    s := Extend(s, Work(w, Look));
    s := Extend(s, Work(w, CommitOutcome));
  }

  /** Two dispatches of one launch are not harmless: the second recounts the ledger after
      the first one's message went out, and books the sent row as skipped. */
  lemma TwoDispatchesMiscount() returns (s: State)
    ensures Reachable(s) && NothingUncommitted(s) && Tally(s.rows, Sent) == 1 && Tally(s.rows, Skipped) == 0
    ensures s.stats.audienceSize == 1 && s.stats.sent == 1 && s.stats.skipped == 1
  {
    s := AboutToSend(true);
    s := Deliver(s, 0);
    assert WithStatus(s.rows, Pending) == {} && WithStatus(s.rows, Skipped) == {} && WithStatus(s.rows, Sent) == {0};
    s := Extend(s, Dispatch(1, Count));
    s := Extend(s, Dispatch(1, WriteCounts));
  }

  /** A cancel that meets a claim in progress counts its row twice. */
  lemma CancelDuringSendMiscounts() returns (s: State)
    ensures Reachable(s) && NothingUncommitted(s) && s.status == Cancelled
    ensures s.stats.audienceSize == 1 && s.stats.sent == 1 && s.stats.skipped == 1
  {
    s := AboutToSend(false);
    assert WithStatus(s.rows, Pending) == {} && WithStatus(s.rows, Claimed) == {0};
    assert Unfinished(s.rows) == {0};
    s := Extend(s, Api(Cancel));
    s := Deliver(s, 0);
  }

  /** The claim of a slow worker has been recovered and its row queued again. */
  lemma Requeued() returns (s: State)
    ensures Reachable(s)
    ensures s == OneRecipient(AnnRow(Pending, 1), Past(false, 1, 0, 1), Idle, false, multiset{[0]})
                 .(dispatchers := [Idle, Queueing(1, 1)], workers := [Worker([0], 0, Send(0), 0, 0)])
  {
    s := AboutToSend(false);
    s := Extend(s, StartDispatch(true));
    assert WithStatus(s.rows, Claimed) == {0};
    s := Extend(s, Dispatch(1, Recover({0})));
    assert s.rows == map[0 := AnnRow(Pending, 1)] && s.past == map[0 := Past(false, 1, 0, 1)];
    s := Extend(s, Dispatch(1, Enqueue([0])));
  }

  /** Recovering the claim of a worker that is merely slow sends the message twice, and
      counts two messages sent in an audience of one. */
  lemma RecoveringALiveClaimSendsTwice() returns (s: State)
    ensures Reachable(s) && NothingUncommitted(s) && 0 in s.past && s.past[0].sends == 2
    ensures Tally(s.rows, Sent) == 1 && s.stats.audienceSize == 1 && s.stats.sent == 2
  {
    s := Requeued();
    s := Extend(s, StartBatch([0], false));
    s := Extend(s, Work(1, Look));
    s := Extend(s, Work(1, TryClaim));
    s := Deliver(s, 1);
    s := Deliver(s, 0);
    assert WithStatus(s.rows, Sent) == {0};
  }

  // ---------------------------------------------------------------- what goes wrong with them

  /** Reached under the hypotheses, with no send worker lost on the way. */
  ghost predicate Allowed(s: State) {
    exists tr, ops :: Fenced(tr, ops) && WorkersSurvive(ops) && tr[|ops|] == s
  }

  lemma AllowOn(s: State, op: Op) returns (t: State)
    requires Allowed(s) && Can(s, op) && Fence(s, op) && !op.Work?
    ensures t == Step(s, op) && Allowed(t)
  {
    t := Step(s, op);
    var tr, ops :| Fenced(tr, ops) && WorkersSurvive(ops) && tr[|ops|] == s;
    FencedOn(tr, ops, s, op);
    var tr2, ops2 := tr + [t], ops + [op];
    assert WorkersSurvive(ops2) && tr2[|ops2|] == t;
  }

  lemma HalfWritten() returns (s: State)
    ensures Allowed(s)
    ensures s == OneRecipient(AnnRow(Pending, 0), Past(false, 0, 0, 0), Idle, false, multiset{}).(stats := NO_STATS)
  {
    assert Fenced([INIT], []) && WorkersSurvive([]);
    s := AllowOn(INIT, Api(Launch(false)));
    s := AllowOn(s, StartDispatch(false));
    s := AllowOn(s, Dispatch(0, OpenCursor));
    s := AllowOn(s, Dispatch(0, Upsert(ANN)));
    s := AllowOn(s, Dispatch(0, DispatchCrash));
  }

  lemma OnlyRowUnfinished(rows: map<RowId, Row>)
    requires rows.Keys == {0} && rows[0].status == Pending
    ensures |Unfinished(rows)| == 1
  {
    assert Unfinished(rows) == {0};
  }

  /** A dispatch that dies part-way through the audience, then a cancel: the hypotheses hold,
      everything has stopped, and the report counts a skip in an audience of nobody. */
  lemma CancelAfterCrashedDispatchMiscounts() returns (s: State)
    ensures Allowed(s) && s.status == Cancelled
    ensures s.jobs == multiset{} && s.workers == [] && s.dispatchers == [Idle] && s.dispatchDue == 0
    ensures s.stats.sent + s.stats.failed + s.stats.skipped == 1 && s.stats.audienceSize == 0
  {
    s := HalfWritten();
    OnlyRowUnfinished(s.rows);
    s := AllowOn(s, Api(Cancel));
  }
}
