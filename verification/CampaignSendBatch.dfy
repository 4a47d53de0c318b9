/** The send worker as a program: every database operation it makes, in the order and with
    the local variables of the code, is a step of the protocol, whatever the rest of the
    system does in between. */
module CampaignSendBatch {
  import opened Options
  import opened CampaignProtocol
  import Delivery = CampaignDelivery
  import Attempts = CampaignAttempts

  /** How a run of the batch loop ends: through the whole batch or at a pause check, by a
      campaign-level error, by a database error, or with its process. */
  datatype Ending = Finished | Aborted | Threw | Died

  function PhaseAfter(e: Ending): Phase {
    match e
    case Finished => Commit(true)
    case Aborted => Abort(true)
    case Threw => Commit(false)
    case Died => Done
  }

  /** The history so far is kept, and only added to. */
  ghost predicate Extends(tr: seq<State>, ops: seq<Op>, laterTr: seq<State>, laterOps: seq<Op>) {
    && |ops| <= |laterOps| && |tr| == |ops| + 1 && |laterTr| == |laterOps| + 1
    && (forall i {:trigger laterOps[i]} :: 0 <= i < |ops| ==> laterOps[i] == ops[i])
    && forall i {:trigger laterTr[i]} :: 0 <= i < |tr| ==> laterTr[i] == tr[i]
  }

  predicate OwnStep(op: Op, w: nat) {
    op.Work? && op.w == w
  }

  lemma OtherWorkLeavesTheWorker(s: State, v: nat, o: WorkOp, w: nat)
    requires CanWork(s, v, o) && v != w && w < |s.workers|
    ensures w < |WorkStep(s, v, o).workers| && WorkStep(s, v, o).workers[w] == s.workers[w]
  {
    match o
    case TryClaim =>
    case WriteOutcome(_) =>
    case _ =>
  }

  lemma OthersLeaveTheWorker(s: State, op: Op, w: nat)
    requires Can(s, op) && !OwnStep(op, w) && w < |s.workers|
    ensures w < |Step(s, op).workers| && Step(s, op).workers[w] == s.workers[w]
  {
    match op
    case Work(v, o) => OtherWorkLeavesTheWorker(s, v, o, w);
    case Api(_) =>
    case Dispatch(_, _) =>
    case _ =>
  }

  /** The worker stands where its local variables say. */
  ghost predicate At(s: State, w: nat, k: Worker) {
    w < |s.workers| && s.workers[w] == k
  }

  /** At step `m` worker `w`, in front of row `index`, found the campaign not `sending`. */
  ghost predicate LookedStopped(tr: seq<State>, ops: seq<Op>, m: nat, w: nat, index: nat) {
    && m < |ops| && |tr| == |ops| + 1 && ops[m] == Work(w, Look) && tr[m].status != Sending
    && w < |tr[m].workers| && tr[m].workers[w].index == index
  }

  lemma LookIsKept(tr: seq<State>, ops: seq<Op>, laterTr: seq<State>, laterOps: seq<Op>, m: nat, w: nat, index: nat)
    requires Extends(tr, ops, laterTr, laterOps) && LookedStopped(tr, ops, m, w, index)
    ensures LookedStopped(laterTr, laterOps, m, w, index)
  {
    assert laterOps[m] == ops[m] && laterTr[m] == tr[m];
  }

  /** The stores, and the environment of one worker: asked for the `n`-th time, a database
      operation fails, the process is killed or the provider answers as fixed beforehand. */
  class Stores {
    const fails: nat -> bool
    const kills: nat -> bool
    const answers: nat -> Reply
    var asked: nat
    var s: State
    ghost var tr: seq<State>
    ghost var ops: seq<Op>

    /** The stores hold what some behaviour of the protocol from its start leads to. */
    ghost predicate Valid()
      reads this
    {
      Reached(tr, ops, s)
    }

    /** Since question `from` a database operation failed, the process was killed, the provider
        gave an answer fatal to the campaign. */
    ghost predicate FailedSince(from: nat)
      reads this
    {
      exists n :: from <= n < asked && fails(n)
    }

    ghost predicate KilledSince(from: nat)
      reads this
    {
      exists n :: from <= n < asked && kills(n)
    }

    ghost predicate FatalSince(from: nat)
      reads this
    {
      exists n :: from <= n < asked && answers(n) == Fatal
    }

    /** What ended the batch, if it did not go through to the end. */
    ghost predicate Excused(ending: Ending, from: nat)
      reads this
    {
      match ending
      case Finished => true
      case Aborted => FatalSince(from)
      case Threw => FailedSince(from)
      case Died => KilledSince(from)
    }

    constructor (fails: nat -> bool, kills: nat -> bool, answers: nat -> Reply)
      ensures Valid() && s == INIT && asked == 0
      ensures this.fails == fails && this.kills == kills && this.answers == answers
    {
      this.fails, this.kills, this.answers, asked := fails, kills, answers, 0;
      s, tr, ops := INIT, [INIT], [];
    }

    method Take(op: Op)
      requires Valid() && Can(s, op)
      modifies this
      ensures Valid() && s == Step(old(s), op) && ops == old(ops) + [op] && tr == old(tr) + [s] && asked == old(asked)
    {
      ReachOn(tr, ops, s, op);
      s := Step(s, op);
      tr, ops := tr + [s], ops + [op];
    }

    /** Anything else in the system may happen here, and the worker's process may be killed. */
    method Meanwhile(w: nat, ghost k: Worker) returns (alive: bool)
      requires Valid() && At(s, w, k) && k.phase != Done
      modifies this
      ensures Valid() && Extends(old(tr), old(ops), tr, ops) && asked == old(asked) + 1
      ensures alive <==> !kills(old(asked))
      ensures alive ==> At(s, w, k)
      ensures !alive ==> w < |s.workers| && s.workers[w].phase == Done
    {
      var others: seq<Op> := *;
      for i := 0 to |others|
        invariant Valid() && Extends(old(tr), old(ops), tr, ops) && At(s, w, k) && asked == old(asked)
      {
        if Can(s, others[i]) && !OwnStep(others[i], w) {
          OthersLeaveTheWorker(s, others[i], w);
          Take(others[i]);
        }
      }
      alive := !kills(asked);
      asked := asked + 1;
      if !alive {
        Take(Work(w, Crash));
      }
    }

    // -------------------------------------------------------------- database operations

    method Note(ghost before: State, ghost op: Op)
      requires Reached(tr, ops, before) && Can(before, op) && s == Step(before, op)
      modifies this`tr, this`ops
      ensures Valid() && ops == old(ops) + [op] && tr == old(tr) + [s]
    {
      ReachOn(tr, ops, before, op);
      tr, ops := tr + [s], ops + [op];
    }

    /** A database operation of the loop is made; when it throws, the batch ends. */
    method Ask(w: nat, ghost k: Worker) returns (ok: bool)
      requires Valid() && At(s, w, k) && (k.phase == Check || k.phase == Phase.Claim)
      modifies this
      ensures Valid() && Extends(old(tr), old(ops), tr, ops) && asked == old(asked) + 1
      ensures ok <==> !fails(old(asked))
      ensures ok ==> s == old(s) && tr == old(tr) && ops == old(ops)
      ensures !ok ==> At(s, w, k.(phase := Commit(false)))
    {
      ok := !fails(asked);
      asked := asked + 1;
      if !ok {
        Take(Work(w, Fault));
      }
    }

    /** The loop head where no query is made: in front of most rows, and at the end of the list. */
    method LookOn(w: nat, ghost k: Worker)
      requires Valid() && At(s, w, k) && k.phase == Check
      requires k.index >= |k.ids| || k.index == 0 || k.index % PAUSE_CHECK_INTERVAL != 0
      modifies this
      ensures Valid() && Extends(old(tr), old(ops), tr, ops) && asked == old(asked)
      ensures At(s, w, k.(phase := if k.index >= |k.ids| then Commit(true) else Phase.Claim))
    {
      Take(Work(w, Look));
    }

    /** The worker saw at its last look, at row `index`, that the campaign is not `sending`. */
    ghost predicate SawStopped(w: nat, index: nat)
      reads this
    {
      exists m :: LookedStopped(tr, ops, m, w, index)
    }

    /** The loop head's countDocuments on `sending`. */
    method CountSending(w: nat, ghost k: Worker) returns (ok: bool, stillSending: bool)
      requires Valid() && At(s, w, k) && k.phase == Check && k.index < |k.ids|
      requires k.index > 0 && k.index % PAUSE_CHECK_INTERVAL == 0
      modifies this
      ensures Valid() && Extends(old(tr), old(ops), tr, ops) && asked == old(asked) + 1
      ensures ok <==> !fails(old(asked))
      ensures !ok ==> At(s, w, k.(phase := Commit(false)))
      ensures ok ==> (stillSending <==> old(s).status == Sending) && ops == old(ops) + [Work(w, Look)]
      ensures ok ==> At(s, w, k.(phase := if stillSending then Phase.Claim else Commit(true)))
      ensures ok && !stillSending ==> SawStopped(w, k.index)
    {
      ok := Ask(w, k);
      stillSending := s.status == Sending;
      if ok {
        Take(Work(w, Look));
        assert stillSending || LookedStopped(tr, ops, |ops| - 1, w, k.index);
      }
    }

    /** findOneAndUpdate by id and `pending`; the worker moves on with what it got. */
    method Claim(w: nat, id: RowId, ghost k: Worker) returns (ok: bool, claimed: Option<Row>)
      requires Valid() && At(s, w, k) && k.phase == Phase.Claim && k.index < |k.ids| && k.ids[k.index] == id
      modifies this
      ensures Valid() && Extends(old(tr), old(ops), tr, ops) && asked == old(asked) + 1
      ensures ok <==> !fails(old(asked))
      ensures !ok ==> At(s, w, k.(phase := Commit(false)))
      ensures ok ==> ops == old(ops) + [Work(w, TryClaim)] && s == Step(old(s), Work(w, TryClaim))
      ensures ok ==> (claimed.Some? <==> id in old(s).rows && old(s).rows[id].status == Pending)
      ensures ok && claimed.Some? ==> claimed.value.destination == old(s).rows[id].destination
      ensures ok ==>
                At(s, w, if claimed.Some? && HasDestination(claimed.value) then k.(phase := Send(id)) else k.Next())
    {
      ok := Ask(w, k);
      claimed := None;
      if !ok {
        return;
      }
      ghost var before := s;
      var me := s.workers[w];
      if id in s.rows && s.rows[id].status == Pending {
        var row := s.rows[id];
        row := row.(status := Claimed, attempts := row.attempts + 1);
        s := s.(rows := s.rows[id := row], past := NoteClaim(s.past, id));
        claimed := Some(row);
      }
      var next := if claimed.Some? && HasDestination(claimed.value) then me.(phase := Send(id)) else me.Next();
      s := s.(workers := s.workers[w := next]);
      Note(before, Work(w, TryClaim));
    }

    method CallProvider(w: nat, id: RowId, ghost k: Worker) returns (reply: Reply)
      requires Valid() && At(s, w, k) && k.phase == Send(id)
      modifies this
      ensures Valid() && ops == old(ops) + [Work(w, WorkOp.CallProvider(reply))] && tr == old(tr) + [s]
      ensures asked == old(asked) + 1 && reply == answers(old(asked))
      ensures At(s, w, k.(phase := match reply case Accepted => WriteSent(id) case Rejected => WriteFailed(id)
                                     case Fatal => PutBack(id)))
    {
      reply := answers(asked);
      asked := asked + 1;
      Take(Work(w, WorkOp.CallProvider(reply)));
    }

    /** updateOne by id alone: no look at the status it overwrites. `ok` is false when it throws. */
    method UpdateRow(w: nat, id: RowId, status: RowStatus, k: Worker) returns (ok: bool)
      requires Valid() && At(s, w, k) && k.Held() == Some(id)
      requires k.phase == match status case Sent => WriteSent(id) case Failed => WriteFailed(id) case _ => PutBack(id)
      requires status in {Sent, Failed, Pending}
      modifies this
      ensures Valid() && ops == old(ops) + [Work(w, WriteOutcome(!ok))] && s == Step(old(s), Work(w, WriteOutcome(!ok)))
      ensures tr == old(tr) + [s] && asked == old(asked) + 1 && (ok <==> !fails(old(asked)))
      ensures s.rows == if ok then Mark(old(s).rows, id, status) else old(s).rows
      ensures At(s, w, match status
                       case Sent => if ok then k.Next().(sent := k.sent + 1) else k.(phase := WriteFailed(id))
                       case Failed => if ok then k.Next().(failed := k.failed + 1) else k.(phase := Commit(false))
                       case _ => k.(phase := if ok then Phase.Abort(true) else Commit(false)))
    {
      ok := !fails(asked);
      asked := asked + 1;
      if !ok {
        Take(Work(w, WriteOutcome(true)));
        return;
      }
      ghost var before := s;
      if id in s.rows {
        s := s.(rows := s.rows[id := s.rows[id].(status := status)]);
      }
      if status == Sent {
        s := s.(workers := s.workers[w := k.Next().(sent := k.sent + 1)]);
      } else if status == Failed {
        s := s.(workers := s.workers[w := k.Next().(failed := k.failed + 1)]);
      } else {
        s := s.(past := NotePutBack(s.past, id), workers := s.workers[w := k.(phase := Phase.Abort(true))]);
      }
      Note(before, Work(w, WriteOutcome(false)));
    }

    method Abort(w: nat, k: Worker)
      requires Valid() && At(s, w, k) && k.phase.Abort?
      modifies this
      ensures Valid() && ops == old(ops) + [Work(w, PauseCampaign)] && s == Step(old(s), Work(w, PauseCampaign))
      ensures tr == old(tr) + [s] && asked == old(asked)
      ensures s.rows == old(s).rows && s.status == if old(s).status == Sending then Paused else old(s).status
      ensures At(s, w, k.(phase := Commit(k.phase.finish)))
    {
      ghost var before := s;
      if s.status == Sending {
        s := s.(status := Paused);
      }
      s := s.(workers := s.workers[w := k.(phase := Commit(k.phase.finish))]);
      Note(before, Work(w, PauseCampaign));
    }

    method CommitOutcome(w: nat, sent: nat, failed: nat, k: Worker)
      requires Valid() && At(s, w, k) && k.phase.Commit? && k.sent == sent && k.failed == failed
      modifies this
      ensures Valid() && ops == old(ops) + [Work(w, WorkOp.CommitOutcome)] && tr == old(tr) + [s] && asked == old(asked)
      ensures s == Step(old(s), Work(w, WorkOp.CommitOutcome))
      ensures s.rows == old(s).rows && s.status == old(s).status
      ensures s.stats == old(s).stats.(sent := old(s).stats.sent + sent, failed := old(s).stats.failed + failed)
      ensures At(s, w, k.(phase := if k.phase.finish then Finalise else Done, sent := 0, failed := 0))
    {
      ghost var before := s;
      if sent != 0 || failed != 0 {
        s := s.(stats := s.stats.(sent := s.stats.sent + sent, failed := s.stats.failed + failed));
      }
      var next := if k.phase.finish then Finalise else Done;
      s := s.(workers := s.workers[w := k.(phase := next, sent := 0, failed := 0)]);
      Note(before, Work(w, WorkOp.CommitOutcome));
    }

    method FinaliseIfDone(w: nat, k: Worker)
      requires Valid() && At(s, w, k) && k.phase == Finalise
      modifies this
      ensures Valid() && ops == old(ops) + [Work(w, WorkOp.FinaliseIfDone)] && tr == old(tr) + [s]
      ensures asked == old(asked)
      ensures s == Step(old(s), Work(w, WorkOp.FinaliseIfDone))
      ensures s.rows == old(s).rows && s.stats == old(s).stats
      ensures s.status == if old(s).status == Sending && Unfinished(old(s).rows) == {} then Completed else old(s).status
      ensures At(s, w, k.(phase := Done))
    {
      ghost var before := s;
      var remaining := |Unfinished(s.rows)|;
      if remaining == 0 && s.status == Sending {
        s := s.(status := Completed);
      }
      s := s.(workers := s.workers[w := k.(phase := Done)]);
      Note(before, Work(w, WorkOp.FinaliseIfDone));
    }

    // -------------------------------------------------------------- one recipient

    /** The try block and its two catch arms, for the claimed row of `k`. */
    method SendAndRecord(w: nat, id: RowId, k: Worker) returns (ending: Option<Ending>, sent: nat, failed: nat)
      requires Valid() && At(s, w, k) && k.phase == Send(id)
      modifies this
      ensures Valid() && Extends(old(tr), old(ops), tr, ops) && asked >= old(asked)
      ensures ending.None? ==> At(s, w, k.Next().(sent := sent, failed := failed))
      ensures ending.Some? ==> ending.value != Finished && Excused(ending.value, old(asked))
      ensures ending.Some? && ending.value != Died ==>
                At(s, w, k.(phase := PhaseAfter(ending.value), sent := sent, failed := failed))
      ensures ending == Some(Died) ==> w < |s.workers| && s.workers[w].phase == Done
    {
      sent, failed := k.sent, k.failed;
      var alive := Meanwhile(w, k);
      if !alive {
        return Some(Died), sent, failed;
      }
      var reply := CallProvider(w, id, k);
      assert reply == Fatal ==> FatalSince(old(asked));
      if reply == Accepted {
        ending, sent, failed := RecordSent(w, id, k.(phase := WriteSent(id)));
      } else {
        var caught := if reply == Fatal then PutBack(id) else WriteFailed(id);
        ending, failed := Catch(w, id, reply == Fatal, k.(phase := caught));
      }
    }

    /** The write after the provider took the message. If it throws, the row counts as failed. */
    method RecordSent(w: nat, id: RowId, k: Worker) returns (ending: Option<Ending>, sent: nat, failed: nat)
      requires Valid() && At(s, w, k) && k.phase == WriteSent(id)
      modifies this
      ensures Valid() && Extends(old(tr), old(ops), tr, ops) && asked >= old(asked)
      ensures ending.None? ==> At(s, w, k.Next().(sent := sent, failed := failed))
      ensures ending.Some? ==> (ending.value == Threw || ending.value == Died) && Excused(ending.value, old(asked))
      ensures ending.Some? && ending.value != Died ==>
                At(s, w, k.(phase := PhaseAfter(ending.value), sent := sent, failed := failed))
      ensures ending == Some(Died) ==> w < |s.workers| && s.workers[w].phase == Done
    {
      sent, failed := k.sent, k.failed;
      var alive := Meanwhile(w, k);
      if !alive {
        return Some(Died), sent, failed;
      }
      var ok := UpdateRow(w, id, Sent, k);
      if ok {
        return None, sent + 1, failed;
      }
      assert fails(asked - 1);
      ending, failed := Catch(w, id, false, k.(phase := WriteFailed(id)));
    }

    method Catch(w: nat, id: RowId, fatal: bool, k: Worker) returns (ending: Option<Ending>, failed: nat)
      requires Valid() && At(s, w, k) && k.phase == (if fatal then PutBack(id) else WriteFailed(id))
      modifies this
      ensures Valid() && Extends(old(tr), old(ops), tr, ops) && asked >= old(asked)
      ensures ending.None? ==> At(s, w, k.Next().(failed := failed))
      ensures ending.Some? ==>
                ending.value != Finished && (ending == Some(Aborted) <==> ending.value != Threw && ending.value != Died)
      ensures ending == Some(Aborted) ==> fatal
      ensures ending == Some(Threw) ==> FailedSince(old(asked))
      ensures ending == Some(Died) ==> KilledSince(old(asked)) && w < |s.workers| && s.workers[w].phase == Done
      ensures ending.Some? && ending.value != Died ==> At(s, w, k.(phase := PhaseAfter(ending.value), failed := failed))
    {
      failed := k.failed;
      var alive := Meanwhile(w, k);
      if !alive {
        return Some(Died), failed;
      }
      var ok := UpdateRow(w, id, if fatal then Pending else Failed, k);
      if !ok {
        return Some(Threw), failed;
      }
      if fatal {
        return Some(Aborted), failed;
      }
      return None, failed + 1;
    }

    // -------------------------------------------------------------- the batch

    /** The pause check at the head of an iteration. `stop` says how it ends the batch, if it does. */
    method CheckPause(w: nat, k: Worker) returns (stop: Option<Ending>)
      requires Valid() && At(s, w, k) && k.phase == Check && k.index < |k.ids|
      modifies this
      ensures Valid() && Extends(old(tr), old(ops), tr, ops) && asked >= old(asked)
      ensures stop.None? ==> At(s, w, k.(phase := Phase.Claim))
      ensures stop.Some? ==> stop.value != Aborted && Excused(stop.value, old(asked))
      ensures stop.Some? && stop.value != Died ==> At(s, w, k.(phase := PhaseAfter(stop.value)))
      ensures stop == Some(Died) ==> w < |s.workers| && s.workers[w].phase == Done
      ensures stop == Some(Finished) ==> k.index > 0 && k.index % 20 == 0 && SawStopped(w, k.index)
    {
      var alive := Meanwhile(w, k);
      if !alive {
        return Some(Died);
      }
      if k.index > 0 && k.index % PAUSE_CHECK_INTERVAL == 0 {
        var ok, stillSending := CountSending(w, k);
        return if !ok then Some(Threw) else if !stillSending then Some(Finished) else None;
      }
      LookOn(w, k);
      stop := None;
    }

    /** The claim, and the delivery of what it got. */
    method ClaimAndSend(w: nat, k: Worker) returns (stop: Option<Ending>, sent: nat, failed: nat)
      requires Valid() && At(s, w, k) && k.phase == Phase.Claim && k.index < |k.ids|
      modifies this
      ensures Valid() && Extends(old(tr), old(ops), tr, ops) && asked >= old(asked)
      ensures stop.None? ==> At(s, w, k.Next().(sent := sent, failed := failed))
      ensures stop.Some? ==> stop.value != Finished && Excused(stop.value, old(asked))
      ensures stop.Some? && stop.value != Died ==>
                At(s, w, k.(phase := PhaseAfter(stop.value), sent := sent, failed := failed))
      ensures stop == Some(Died) ==> w < |s.workers| && s.workers[w].phase == Done
    {
      sent, failed := k.sent, k.failed;
      var alive := Meanwhile(w, k);
      if !alive {
        return Some(Died), sent, failed;
      }
      var recipientId := k.ids[k.index];
      var ok, claimed := Claim(w, recipientId, k);
      if !ok {
        return Some(Threw), sent, failed;
      }
      if claimed.None? || claimed.value.destination.None? || claimed.value.destination.value == "" {
        return None, sent, failed;
      }
      stop, sent, failed := SendAndRecord(w, recipientId, k.(phase := Send(recipientId)));
    }

    /** The batch goes through to its end unless a pause check finds the campaign stopped, a
        database operation fails, the process dies or the provider refuses the campaign. */
    method DeliverAll(w: nat, recipientIds: seq<RowId>) returns (ending: Ending, sent: nat, failed: nat, index: nat)
      requires Valid() && At(s, w, Worker(recipientIds, 0, Check, 0, 0))
      modifies this
      ensures Valid() && Extends(old(tr), old(ops), tr, ops) && asked >= old(asked)
      ensures ending != Died ==> At(s, w, Worker(recipientIds, index, PhaseAfter(ending), sent, failed))
      ensures ending == Died ==> w < |s.workers| && s.workers[w].phase == Done
      ensures Excused(ending, old(asked))
      ensures ending == Finished ==>
                index == |recipientIds| || (0 < index < |recipientIds| && index % 20 == 0 && SawStopped(w, index))
    {
      sent, failed, index := 0, 0, 0;
      var loaded := Ask(w, Worker(recipientIds, 0, Check, 0, 0));
      if !loaded {
        return Threw, sent, failed, index;
      }
      while index < |recipientIds|
        invariant index <= |recipientIds| && asked >= old(asked)
        invariant Valid() && Extends(old(tr), old(ops), tr, ops)
        invariant At(s, w, Worker(recipientIds, index, Check, sent, failed))
        decreases |recipientIds| - index
      {
        var stop := CheckPause(w, Worker(recipientIds, index, Check, sent, failed));
        if stop.Some? {
          return stop.value, sent, failed, index;
        }
        stop, sent, failed := ClaimAndSend(w, Worker(recipientIds, index, Phase.Claim, sent, failed));
        if stop.Some? {
          return stop.value, sent, failed, index;
        }
        index := index + 1;
      }
      LookOn(w, Worker(recipientIds, index, Check, sent, failed));
      ending := Finished;
    }

    /** Nothing went wrong since question `from`. */
    ghost predicate Smooth(from: nat)
      reads this
    {
      !FailedSince(from) && !KilledSince(from) && !FatalSince(from)
    }

    /** Worker `w` has come to some row of its batch, the last one unless it saw there that the
        campaign had stopped, has committed what came of it and looked whether the campaign is done. */
    ghost predicate RanThrough(w: nat, recipientIds: seq<RowId>)
      reads this
    {
      && w < |s.workers| && ops != [] && ops[|ops| - 1] == Work(w, WorkOp.FinaliseIfDone)
      && var k := s.workers[w];
         && k == Worker(recipientIds, k.index, Done, 0, 0) && k.index <= |recipientIds|
         && (k.index < |recipientIds| ==> k.index > 0 && k.index % 20 == 0 && SawStopped(w, k.index))
    }

    /** One job of the send queue, from the moment a worker takes it. Whatever else runs, and
        wherever it stops, no row is ever handed to the provider more often than it was claimed;
        and if nothing goes wrong, it runs through, each row it came past having been tried. */
    method SendBatch(recipientIds: seq<RowId>, replay: bool)
      requires Valid() && recipientIds in s.jobs
      modifies this
      ensures Valid() && Extends(old(tr), old(ops), tr, ops) && asked >= old(asked)
      ensures old(s).status != Sending ==> s == Step(old(s), DropBatch(recipientIds))
      ensures old(s).status == Sending ==>
                var w := |old(s).workers|;
                && w < |s.workers| && s.workers[w].phase == Done
                && (Smooth(old(asked)) ==>
                      RanThrough(w, recipientIds)
                      && forall q {:trigger Attempts.Tried(tr, ops, w, q)} ::
                           0 <= q < s.workers[w].index ==> Attempts.Tried(tr, ops, w, q))
      ensures forall r :: r in s.rows ==>
                r in s.past && s.past[r].sends <= s.rows[r].attempts <= 1 + s.past[r].putBacks
    {
      if s.status != Sending {
        Take(DropBatch(recipientIds));
      } else {
        var w := |s.workers|;
        Take(StartBatch(recipientIds, replay));
        RunBatch(w, recipientIds);
        TriedUpToItsIndex(w);
      }
      RowsAreBounded();
    }

    lemma RowsAreBounded()
      requires Valid()
      ensures forall r :: r in s.rows ==>
                r in s.past && s.past[r].sends <= s.rows[r].attempts <= 1 + s.past[r].putBacks
    {
      forall r | r in s.rows
        ensures r in s.past && s.past[r].sends <= s.rows[r].attempts <= 1 + s.past[r].putBacks
      {
        Delivery.DeliveryBound(tr, ops, |ops|, r);
      }
    }

    lemma TriedUpToItsIndex(w: nat)
      requires Valid() && w < |s.workers|
      ensures forall q {:trigger Attempts.Tried(tr, ops, w, q)} ::
                0 <= q < s.workers[w].index ==> Attempts.Tried(tr, ops, w, q)
    {
      forall q {:trigger Attempts.Tried(tr, ops, w, q)} | 0 <= q < s.workers[w].index
        ensures Attempts.Tried(tr, ops, w, q)
      {
        var m := Attempts.EveryRowPassedWasTried(tr, ops, |ops|, w, q);
      }
    }

    method RunBatch(w: nat, recipientIds: seq<RowId>)
      requires Valid() && At(s, w, Worker(recipientIds, 0, Check, 0, 0))
      modifies this
      ensures Valid() && Extends(old(tr), old(ops), tr, ops) && asked >= old(asked)
      ensures w < |s.workers| && s.workers[w].phase == Done
      ensures Smooth(old(asked)) ==> RanThrough(w, recipientIds)
    {
      var k := Worker(recipientIds, 0, Check, 0, 0);
      var alive := Meanwhile(w, k);
      if !alive {
        assert kills(old(asked));
        return;
      }
      var isOpen := OpenSession(w, k);
      if !isOpen {
        assert fails(asked - 1);
        GiveUp(w, k.(phase := Phase.Abort(false)));
      } else {
        DeliverAndClose(w, recipientIds);
      }
    }

    method DeliverAndClose(w: nat, recipientIds: seq<RowId>)
      requires Valid() && At(s, w, Worker(recipientIds, 0, Check, 0, 0))
      modifies this
      ensures Valid() && Extends(old(tr), old(ops), tr, ops) && asked >= old(asked)
      ensures w < |s.workers| && s.workers[w].phase == Done
      ensures Smooth(old(asked)) ==> RanThrough(w, recipientIds)
    {
      var ending, sent, failed, index := DeliverAll(w, recipientIds);
      var k := Worker(recipientIds, index, PhaseAfter(ending), sent, failed);
      assert ending != Finished ==> !Smooth(old(asked));
      match ending
      case Finished => CloseFinished(w, k);
      case Aborted => CloseAborted(w, k);
      case Threw =>
        var _ := CommitUnlessKilled(w, k);
      case Died =>
    }

    /** What follows a batch that went through: the outcome committed, and the campaign looked at. */
    method CloseFinished(w: nat, k: Worker)
      requires Valid() && At(s, w, k) && k.phase == Phase.Commit(true) && k.index <= |k.ids|
      requires k.index < |k.ids| ==> k.index > 0 && k.index % 20 == 0 && SawStopped(w, k.index)
      modifies this
      ensures Valid() && Extends(old(tr), old(ops), tr, ops) && asked >= old(asked)
      ensures w < |s.workers| && s.workers[w].phase == Done
      ensures !KilledSince(old(asked)) ==> RanThrough(w, k.ids)
    {
      ghost var trThen, opsThen := tr, ops;
      Conclude(w, k);
      if !KilledSince(old(asked)) {
        StillRanThrough(w, k, trThen, opsThen);
      }
    }

    /** What the worker saw before the outcome was committed, it has seen. */
    lemma StillRanThrough(w: nat, k: Worker, trThen: seq<State>, opsThen: seq<Op>)
      requires Extends(trThen, opsThen, tr, ops) && k.index <= |k.ids|
      requires w < |s.workers| && s.workers[w] == k.(phase := Done, sent := 0, failed := 0)
      requires ops != [] && ops[|ops| - 1] == Work(w, WorkOp.FinaliseIfDone)
      requires k.index < |k.ids| ==>
                 k.index > 0 && k.index % 20 == 0 && exists m :: LookedStopped(trThen, opsThen, m, w, k.index)
      ensures RanThrough(w, k.ids)
    {
      if k.index < |k.ids| {
        var m :| LookedStopped(trThen, opsThen, m, w, k.index);
        LookIsKept(trThen, opsThen, tr, ops, m, w, k.index);
      }
    }

    /** The catch block for a campaign-level error, and what follows it. */
    method CloseAborted(w: nat, k: Worker)
      requires Valid() && At(s, w, k) && k.phase == Phase.Abort(true)
      modifies this
      ensures Valid() && Extends(old(tr), old(ops), tr, ops) && asked >= old(asked)
      ensures w < |s.workers| && s.workers[w].phase == Done
    {
      var alive := Meanwhile(w, k);
      if alive {
        Abort(w, k);
        Conclude(w, k.(phase := Phase.Commit(true)));
      }
    }

    /** The finally block. */
    method CommitUnlessKilled(w: nat, k: Worker) returns (alive: bool)
      requires Valid() && At(s, w, k) && k.phase.Commit?
      modifies this
      ensures Valid() && Extends(old(tr), old(ops), tr, ops) && asked == old(asked) + 1
      ensures alive <==> !kills(old(asked))
      ensures alive ==> At(s, w, k.(phase := if k.phase.finish then Finalise else Done, sent := 0, failed := 0))
      ensures !alive ==> w < |s.workers| && s.workers[w].phase == Done
    {
      alive := Meanwhile(w, k);
      if alive {
        CommitOutcome(w, k.sent, k.failed, k);
      }
    }

    method Conclude(w: nat, k: Worker)
      requires Valid() && At(s, w, k) && k.phase == Phase.Commit(true)
      modifies this
      ensures Valid() && Extends(old(tr), old(ops), tr, ops) && asked >= old(asked)
      ensures w < |s.workers| && s.workers[w].phase == Done
      ensures !KilledSince(old(asked)) ==>
                ops != [] && ops[|ops| - 1] == Work(w, WorkOp.FinaliseIfDone)
                && s.workers[w] == k.(phase := Done, sent := 0, failed := 0)
    {
      var alive := CommitUnlessKilled(w, k);
      if !alive {
        assert kills(old(asked));
        return;
      }
      var done := k.(phase := Finalise, sent := 0, failed := 0);
      alive := Meanwhile(w, done);
      if alive {
        FinaliseIfDone(w, done);
      } else {
        assert kills(asked - 1);
      }
    }

    /** No session could be opened: the campaign is paused. */
    method GiveUp(w: nat, k: Worker)
      requires Valid() && At(s, w, k) && k.phase == Phase.Abort(false) && k.sent == 0 && k.failed == 0
      modifies this
      ensures Valid() && Extends(old(tr), old(ops), tr, ops) && asked >= old(asked)
      ensures w < |s.workers| && s.workers[w].phase == Done
    {
      var alive := Meanwhile(w, k);
      if alive {
        Abort(w, k);
        CommitOutcome(w, 0, 0, k.(phase := Commit(false)));
      }
    }

    method OpenSession(w: nat, ghost k: Worker) returns (isOpen: bool)
      requires Valid() && At(s, w, k) && k.phase == Check && k.index == 0
      modifies this
      ensures Valid() && Extends(old(tr), old(ops), tr, ops) && asked == old(asked) + 1
      ensures isOpen <==> !fails(old(asked))
      ensures At(s, w, if isOpen then k else k.(phase := Phase.Abort(false)))
    {
      isOpen := !fails(asked);
      asked := asked + 1;
      if !isOpen {
        Take(Work(w, OpenFails));
      }
    }
  }
}
