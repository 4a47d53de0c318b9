/** The campaign send protocol: one campaign document, its recipient ledger, the two
    job queues, and any number of dispatch and send workers, as a transition system
    with one step per database operation. */
module CampaignProtocol {
  import opened Options
  import opened Audience

  const SEND_BATCH_SIZE: nat := 100
  const PAUSE_CHECK_INTERVAL: nat := 20

  type RowId = nat

  datatype CampaignStatus = Draft | Scheduled | Sending | Paused | Completed | Cancelled

  /** `Claimed` is the stored value `sending`. */
  datatype RowStatus = Pending | Claimed | Sent | Failed | Skipped

  datatype Row = Row(contact: ContactId, destination: Option<string>, status: RowStatus, attempts: nat)

  /** What happened to a row so far. Not stored by the program; only the theorems read it. */
  datatype Past = Past(bornSkipped: bool, claims: nat, sends: nat, putBacks: nat)

  datatype Stats = Stats(audienceSize: nat, queued: nat, sent: int, failed: int, skipped: int)

  /** Where one run of `sendBatch` stands. `finish` tells whether `finaliseIfDone` follows. */
  datatype Phase =
    | Check
    | Claim
    | Send(row: RowId)
    | WriteSent(row: RowId)
    | WriteFailed(row: RowId)
    | PutBack(row: RowId)
    | Abort(finish: bool)
    | Commit(finish: bool)
    | Finalise
    | Done

  datatype Worker = Worker(ids: seq<RowId>, index: nat, phase: Phase, sent: nat, failed: nat) {
    function Held(): Option<RowId> {
      match phase
      case Send(r) => Some(r)
      case WriteSent(r) => Some(r)
      case WriteFailed(r) => Some(r)
      case PutBack(r) => Some(r)
      case _ => None
    }

    function Next(): Worker {
      this.(index := index + 1, phase := Check)
    }
  }

  /** Where one run of `dispatch` stands. `Preparing` reads the frozen predicate, before
      the first row is written. */
  datatype Dispatcher =
    | Idle
    | Preparing
    | Materialising
    | Counted(size: nat, sendable: nat)
    | Aborting
    | Recovering
    | Queueing(from: RowId, queued: nat)

  datatype State = State(
    status: CampaignStatus,
    stats: Stats,
    rows: map<RowId, Row>,
    nextId: RowId,
    past: map<RowId, Past>,
    dispatchDue: nat,
    dispatchers: seq<Dispatcher>,
    jobs: multiset<seq<RowId>>,
    workers: seq<Worker>,
    lostSent: nat,
    lostFailed: nat)

  const NO_STATS := Stats(0, 0, 0, 0, 0)
  const INIT := State(Draft, NO_STATS, map[], 0, map[], 0, [], multiset{}, [], 0, 0)

  datatype Reply = Accepted | Rejected | Fatal

  datatype ApiOp = Launch(future: bool) | Promote | Pause | Resume | Cancel | Retry

  datatype DispatchOp =
    | OpenCursor
    | Upsert(decision: RecipientDecision)
    | Overflow
    | NoPredicate
    | PauseRun
    | Count
    | WriteCounts
    | Recover(freed: set<RowId>)
    | Enqueue(ids: seq<RowId>)
    | Finish
    | DispatchCrash

  datatype WorkOp =
    | OpenFails
    | Look
    | TryClaim
    | CallProvider(reply: Reply)
    | WriteOutcome(fault: bool)
    | PauseCampaign
    | CommitOutcome
    | FinaliseIfDone
    | Fault
    | Crash

  datatype Op =
    | Api(api: ApiOp)
    | StartDispatch(replay: bool)
    | DropDispatch
    | Dispatch(d: nat, dop: DispatchOp)
    | StartBatch(ids: seq<RowId>, replay: bool)
    | DropBatch(ids: seq<RowId>)
    | Work(w: nat, wop: WorkOp)

  // ---------------------------------------------------------------- ledger

  function WithStatus(rows: map<RowId, Row>, st: RowStatus): set<RowId> {
    set r | r in rows && rows[r].status == st
  }

  function Tally(rows: map<RowId, Row>, st: RowStatus): nat {
    |WithStatus(rows, st)|
  }

  /** `updateMany` over the rows in `which`. */
  function Retag(rows: map<RowId, Row>, which: set<RowId>, st: RowStatus): map<RowId, Row> {
    map r | r in rows :: if r in which then rows[r].(status := st) else rows[r]
  }

  function Mark(rows: map<RowId, Row>, r: RowId, st: RowStatus): map<RowId, Row> {
    if r in rows then rows[r := rows[r].(status := st)] else rows
  }

  function Unfinished(rows: map<RowId, Row>): set<RowId> {
    WithStatus(rows, Pending) + WithStatus(rows, Claimed)
  }

  function PutBackPast(past: map<RowId, Past>, which: set<RowId>): map<RowId, Past> {
    map r | r in past :: if r in which then past[r].(putBacks := past[r].putBacks + 1) else past[r]
  }

  predicate HasContact(rows: map<RowId, Row>, c: ContactId) {
    exists r :: r in rows && rows[r].contact == c
  }

  /** The row `$setOnInsert` writes for a decision. */
  function FreshRow(d: RecipientDecision): Row {
    Row(d.contactId, d.destination, if d.skipReason.Some? then Skipped else Pending, 0)
  }

  predicate HasDestination(row: Row) {
    row.destination.Some? && row.destination.value != ""
  }

  function StatusUnlessStopped(s: State, next: CampaignStatus): CampaignStatus {
    if s.status == Sending then next else s.status
  }

  /** `finaliseIfDone`, its count and its guarded update taken as one step. */
  function Finalised(s: State): CampaignStatus {
    if Unfinished(s.rows) == {} then StatusUnlessStopped(s, Completed) else s.status
  }

  // ---------------------------------------------------------------- requests

  predicate CanApi(s: State, a: ApiOp) {
    match a
    case Launch(_) => s.status in {Draft, Scheduled}
    case Promote => s.status == Scheduled
    case Pause => s.status == Sending
    case Resume => s.status == Paused
    case Cancel => s.status in {Scheduled, Sending, Paused}
    case Retry => s.status in {Completed, Paused, Cancelled} && WithStatus(s.rows, Failed) != {}
  }

  function ApiStep(s: State, a: ApiOp): State
    requires CanApi(s, a)
  {
    match a
    case Launch(future) =>
      s.(status := if future then Scheduled else Sending, stats := NO_STATS,
         dispatchDue := s.dispatchDue + if future then 0 else 1)
    case Promote => s.(status := Sending, dispatchDue := s.dispatchDue + 1)
    case Pause => s.(status := Paused)
    case Resume => s.(status := Sending, dispatchDue := s.dispatchDue + 1)
    case Cancel =>
      var swept := Unfinished(s.rows);
      s.(status := Cancelled, rows := Retag(s.rows, swept, Skipped),
         stats := s.stats.(skipped := s.stats.skipped + |swept|))
    case Retry =>
      var failed := WithStatus(s.rows, Failed);
      s.(status := Sending, rows := Retag(s.rows, failed, Pending),
         past := PutBackPast(s.past, failed),
         stats := s.stats.(failed := s.stats.failed - |failed|),
         dispatchDue := s.dispatchDue + 1)
  }

  // ---------------------------------------------------------------- dispatch

  predicate Ascending(ids: seq<RowId>) {
    forall i, j :: 0 <= i < j < |ids| ==> ids[i] < ids[j]
  }

  predicate CanDispatch(s: State, d: nat, o: DispatchOp) {
    && d < |s.dispatchers|
    && match o
       case OpenCursor => s.dispatchers[d] == Preparing
       case Upsert(decision) => s.dispatchers[d] == Materialising && decision.Legal()
       case Overflow => s.dispatchers[d] == Materialising
       case NoPredicate => s.dispatchers[d] == Preparing
       case PauseRun => s.dispatchers[d] == Aborting
       case Count => s.dispatchers[d] == Materialising
       case WriteCounts => s.dispatchers[d].Counted?
       case Recover(freed) => s.dispatchers[d] == Recovering && freed <= WithStatus(s.rows, Claimed)
       case Enqueue(ids) =>
         && s.dispatchers[d].Queueing?
         && 0 < |ids| <= SEND_BATCH_SIZE && Ascending(ids) && s.dispatchers[d].from <= ids[0]
         && (forall r :: r in ids ==> r in s.rows && s.rows[r].status == Pending)
         && (forall r :: r in s.rows && s.rows[r].status == Pending && s.dispatchers[d].from <= r <= ids[|ids| - 1]
                         ==> r in ids)
       case Finish =>
         && s.dispatchers[d].Queueing?
         && forall r :: r in s.rows && s.dispatchers[d].from <= r ==> s.rows[r].status != Pending
       case DispatchCrash => true
  }

  function DispatchStep(s: State, d: nat, o: DispatchOp): State
    requires CanDispatch(s, d, o)
  {
    var me := s.dispatchers[d];
    match o
    case OpenCursor => s.(dispatchers := s.dispatchers[d := Materialising])
    case Upsert(decision) =>
      if HasContact(s.rows, decision.contactId) then s else
      s.(rows := s.rows[s.nextId := FreshRow(decision)],
         past := s.past[s.nextId := Past(decision.skipReason.Some?, 0, 0, 0)],
         nextId := s.nextId + 1)
    case Overflow => s.(rows := map[], dispatchers := s.dispatchers[d := Aborting])
    case NoPredicate => s.(dispatchers := s.dispatchers[d := Aborting])
    case PauseRun => s.(status := StatusUnlessStopped(s, Paused), dispatchers := s.dispatchers[d := Idle])
    case Count => s.(dispatchers := s.dispatchers[d := Counted(|s.rows|, Tally(s.rows, Pending))])
    case WriteCounts =>
      s.(stats := s.stats.(audienceSize := me.size, queued := me.sendable, skipped := me.size - me.sendable),
         dispatchers := s.dispatchers[d := Recovering])
    case Recover(freed) =>
      s.(rows := Retag(s.rows, freed, Pending), past := PutBackPast(s.past, freed),
         dispatchers := s.dispatchers[d := Queueing(0, 0)])
    case Enqueue(ids) =>
      s.(jobs := s.jobs + multiset{ids},
         dispatchers := s.dispatchers[d := Queueing(ids[|ids| - 1] + 1, me.queued + |ids|)])
    case Finish =>
      s.(status := if me.queued == 0 then Finalised(s) else s.status, dispatchers := s.dispatchers[d := Idle])
    case DispatchCrash => s.(dispatchers := s.dispatchers[d := Idle])
  }

  // ---------------------------------------------------------------- send workers

  function NoteClaim(past: map<RowId, Past>, r: RowId): map<RowId, Past> {
    if r in past then past[r := past[r].(claims := past[r].claims + 1)] else past
  }

  function NoteSend(past: map<RowId, Past>, r: RowId): map<RowId, Past> {
    if r in past then past[r := past[r].(sends := past[r].sends + 1)] else past
  }

  function NotePutBack(past: map<RowId, Past>, r: RowId): map<RowId, Past> {
    if r in past then past[r := past[r].(putBacks := past[r].putBacks + 1)] else past
  }

  predicate CanWork(s: State, w: nat, o: WorkOp) {
    && w < |s.workers|
    && var k := s.workers[w];
       match o
       case OpenFails => k.phase == Check && k.index == 0
       case Look => k.phase == Check
       case TryClaim => k.phase == Claim && k.index < |k.ids|
       case CallProvider(_) => k.phase.Send?
       case WriteOutcome(_) => k.phase.WriteSent? || k.phase.WriteFailed? || k.phase.PutBack?
       case PauseCampaign => k.phase.Abort?
       case CommitOutcome => k.phase.Commit?
       case FinaliseIfDone => k.phase == Finalise
       case Fault => k.phase == Check || k.phase == Claim
       case Crash => k.phase != Done
  }

  /** One turn of the loop head: stop at the end, or at a pause check that finds the campaign stopped. */
  function AfterLook(k: Worker, status: CampaignStatus): Phase {
    if k.index >= |k.ids| then Commit(true)
    else if k.index > 0 && k.index % PAUSE_CHECK_INTERVAL == 0 && status != Sending then Commit(true)
    else Claim
  }

  function ClaimStep(s: State, w: nat): State
    requires CanWork(s, w, TryClaim)
  {
    var k := s.workers[w];
    var r := k.ids[k.index];
    if r in s.rows && s.rows[r].status == Pending then
      var row := s.rows[r];
      s.(rows := s.rows[r := row.(status := Claimed, attempts := row.attempts + 1)],
         past := NoteClaim(s.past, r),
         workers := s.workers[w := if HasDestination(row) then k.(phase := Send(r)) else k.Next()])
    else
      s.(workers := s.workers[w := k.Next()])
  }

  function WriteStep(s: State, w: nat, fault: bool): State
    requires CanWork(s, w, WriteOutcome(fault))
  {
    var k := s.workers[w];
    match k.phase
    case WriteSent(r) =>
      if fault then s.(workers := s.workers[w := k.(phase := WriteFailed(r))])
      else s.(rows := Mark(s.rows, r, Sent), workers := s.workers[w := k.Next().(sent := k.sent + 1)])
    case WriteFailed(r) =>
      if fault then s.(workers := s.workers[w := k.(phase := Commit(false))])
      else s.(rows := Mark(s.rows, r, Failed), workers := s.workers[w := k.Next().(failed := k.failed + 1)])
    case PutBack(r) =>
      if fault then s.(workers := s.workers[w := k.(phase := Commit(false))])
      else s.(rows := Mark(s.rows, r, Pending), past := NotePutBack(s.past, r),
              workers := s.workers[w := k.(phase := Abort(true))])
  }

  function WorkStep(s: State, w: nat, o: WorkOp): State
    requires CanWork(s, w, o)
  {
    var k := s.workers[w];
    match o
    case OpenFails => s.(workers := s.workers[w := k.(phase := Abort(false))])
    case Look => s.(workers := s.workers[w := k.(phase := AfterLook(k, s.status))])
    case TryClaim => ClaimStep(s, w)
    case CallProvider(reply) =>
      var r := k.phase.row;
      var next := match reply case Accepted => WriteSent(r) case Rejected => WriteFailed(r) case Fatal => PutBack(r);
      s.(past := NoteSend(s.past, r), workers := s.workers[w := k.(phase := next)])
    case WriteOutcome(fault) => WriteStep(s, w, fault)
    case PauseCampaign =>
      s.(status := StatusUnlessStopped(s, Paused), workers := s.workers[w := k.(phase := Commit(k.phase.finish))])
    case CommitOutcome =>
      s.(stats := s.stats.(sent := s.stats.sent + k.sent, failed := s.stats.failed + k.failed),
         workers := s.workers[w := k.(phase := if k.phase.finish then Finalise else Done, sent := 0, failed := 0)])
    case FinaliseIfDone => s.(status := Finalised(s), workers := s.workers[w := k.(phase := Done)])
    case Fault => s.(workers := s.workers[w := k.(phase := Commit(false))])
    case Crash =>
      s.(workers := s.workers[w := k.(phase := Done, sent := 0, failed := 0)],
         lostSent := s.lostSent + k.sent, lostFailed := s.lostFailed + k.failed)
  }

  // ---------------------------------------------------------------- behaviours

  predicate Can(s: State, op: Op) {
    match op
    case Api(a) => CanApi(s, a)
    case StartDispatch(replay) => s.status == Sending && (replay || s.dispatchDue > 0)
    case DropDispatch => s.status != Sending && s.dispatchDue > 0
    case Dispatch(d, o) => CanDispatch(s, d, o)
    case StartBatch(ids, _) => s.status == Sending && ids in s.jobs
    case DropBatch(ids) => s.status != Sending && ids in s.jobs
    case Work(w, o) => CanWork(s, w, o)
  }

  function Step(s: State, op: Op): State
    requires Can(s, op)
  {
    match op
    case Api(a) => ApiStep(s, a)
    case StartDispatch(replay) =>
      s.(dispatchDue := if replay then s.dispatchDue else s.dispatchDue - 1,
         dispatchers := s.dispatchers + [if s.stats.audienceSize == 0 then Preparing else Recovering])
    case DropDispatch => s.(dispatchDue := s.dispatchDue - 1)
    case Dispatch(d, o) => DispatchStep(s, d, o)
    case StartBatch(ids, replay) =>
      s.(jobs := if replay then s.jobs else s.jobs - multiset{ids},
         workers := s.workers + [Worker(ids, 0, Check, 0, 0)])
    case DropBatch(ids) => s.(jobs := s.jobs - multiset{ids})
    case Work(w, o) => WorkStep(s, w, o)
  }

  /** `tr` is what the stores go through when `ops` happen in order, in any interleaving. */
  ghost predicate Behaviour(tr: seq<State>, ops: seq<Op>) {
    && |tr| == |ops| + 1
    && tr[0] == INIT
    && forall i {:trigger ops[i]} :: 0 <= i < |ops| ==> Can(tr[i], ops[i]) && tr[i + 1] == Step(tr[i], ops[i])
  }

  ghost predicate Reached(tr: seq<State>, ops: seq<Op>, s: State) {
    Behaviour(tr, ops) && tr[|ops|] == s
  }

  lemma ReachOn(tr: seq<State>, ops: seq<Op>, s: State, op: Op)
    requires Reached(tr, ops, s) && Can(s, op)
    ensures Reached(tr + [Step(s, op)], ops + [op], Step(s, op))
  {
    var tr2, ops2 := tr + [Step(s, op)], ops + [op];
    forall i {:trigger ops2[i]} | 0 <= i < |ops2|
      ensures Can(tr2[i], ops2[i]) && tr2[i + 1] == Step(tr2[i], ops2[i])
    {
      if i < |ops| {
        assert ops2[i] == ops[i];
      }
    }
  }

  /** A worker's step moves that worker alone, and neither queue nor any dispatch. */
  lemma WorkMovesOne(s: State, w: nat, o: WorkOp)
    requires CanWork(s, w, o)
    ensures var t := WorkStep(s, w, o);
            && |t.workers| == |s.workers| && t.workers == s.workers[w := t.workers[w]]
            && t.dispatchers == s.dispatchers && t.jobs == s.jobs && t.dispatchDue == s.dispatchDue
            && t.nextId == s.nextId && t.rows.Keys == s.rows.Keys && t.past.Keys == s.past.Keys
  {
    if o == TryClaim {
    } else if o.WriteOutcome? {
    } else {
    }
  }

  // ---------------------------------------------------------------- hypotheses

  predicate Holds(s: State, r: RowId) {
    exists w :: 0 <= w < |s.workers| && s.workers[w].Held() == Some(r)
  }

  /** Still to touch the ledger or the queue; one that is aborting only pauses the campaign. */
  predicate Active(d: Dispatcher) {
    d != Idle && d != Aborting
  }

  /** Still writing the audience, so that a cancel now would miss or miscount rows. */
  predicate MidAudience(d: Dispatcher) {
    d == Preparing || d == Materialising || (d.Counted? && d.sendable > 0)
  }

  /** The scheduling the claim design relies on: while the audience is not recorded one
      dispatch at a time, stale recovery frees only claims nobody still works on, and a
      cancel meets no claim in progress and no audience being written. */
  predicate Fence(s: State, op: Op) {
    match op
    case StartDispatch(_) =>
      s.stats.audienceSize > 0 || forall d :: 0 <= d < |s.dispatchers| ==> !Active(s.dispatchers[d])
    case Dispatch(_, Recover(freed)) => forall r :: r in freed ==> !Holds(s, r)
    case Api(Cancel) =>
      && (forall r :: r in s.rows ==> !Holds(s, r))
      && (forall d :: 0 <= d < |s.dispatchers| ==> !MidAudience(s.dispatchers[d]))
    case _ => true
  }

  ghost predicate Fenced(tr: seq<State>, ops: seq<Op>) {
    Behaviour(tr, ops) && forall i {:trigger ops[i]} :: 0 <= i < |ops| ==> Fence(tr[i], ops[i])
  }

  lemma FencedOn(tr: seq<State>, ops: seq<Op>, s: State, op: Op)
    requires Fenced(tr, ops) && tr[|ops|] == s && Can(s, op) && Fence(s, op)
    ensures Fenced(tr + [Step(s, op)], ops + [op])
  {
    ReachOn(tr, ops, s, op);
    var tr2, ops2 := tr + [Step(s, op)], ops + [op];
    forall i {:trigger ops2[i]} | 0 <= i < |ops2| ensures Fence(tr2[i], ops2[i]) {
      if i < |ops| {
        assert ops2[i] == ops[i];
      }
    }
  }

  /** No worker dies or gives up on an infrastructure fault. A failed write of a sent row is
      neither: the row is then recorded as failed. */
  predicate Smooth(s: State, op: Op) {
    match op
    case Dispatch(_, DispatchCrash) => false
    case Work(_, Crash) => false
    case Work(_, Fault) => false
    case Work(w, WriteOutcome(fault)) => fault ==> w < |s.workers| && s.workers[w].phase.WriteSent?
    case _ => true
  }
}
