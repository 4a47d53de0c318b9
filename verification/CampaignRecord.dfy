/** The notes on each row are the run's own history: how often it was claimed, handed to the
    provider and put back, counted over the steps themselves. */
module CampaignRecord {
  import opened Options
  import opened CampaignEffects
  import opened CampaignProtocol
  import Delivery = CampaignDelivery

  function Noted(p: Past, e: Event): nat {
    match e
    case Taken => p.claims
    case Called => p.sends
    case Returned => p.putBacks
  }

  /** How often it happened in the first `i` steps. */
  ghost function Times(tr: seq<State>, ops: seq<Op>, e: Event, i: nat, r: RowId): nat
    requires i <= |ops| < |tr|
  {
    if i == 0 then 0 else Times(tr, ops, e, i - 1, r) + if Happens(e, tr[i - 1], ops[i - 1], r) then 1 else 0
  }

  lemma WorkIsNoted(s: State, w: nat, o: WorkOp, e: Event, r: RowId)
    requires CanWork(s, w, o) && r in s.past
    ensures r in WorkStep(s, w, o).past && WorkStep(s, w, o).past[r].bornSkipped == s.past[r].bornSkipped
    ensures Noted(WorkStep(s, w, o).past[r], e)
            == Noted(s.past[r], e) + if Happens(e, s, Work(w, o), r) then 1 else 0
  {
    match o
    case TryClaim =>
    case WriteOutcome(_) =>
    case _ =>
  }

  lemma DispatchIsNoted(s: State, d: nat, o: DispatchOp, e: Event, r: RowId)
    requires CanDispatch(s, d, o) && r in s.past && r < s.nextId
    ensures var t := DispatchStep(s, d, o);
            && r in t.past && t.past[r].bornSkipped == s.past[r].bornSkipped
            && Noted(t.past[r], e) == Noted(s.past[r], e) + if Happens(e, s, Dispatch(d, o), r) then 1 else 0
  {
  }

  lemma StepIsNoted(s: State, op: Op, e: Event, r: RowId)
    requires Can(s, op) && r in s.past && r < s.nextId
    ensures r in Step(s, op).past && Step(s, op).past[r].bornSkipped == s.past[r].bornSkipped
    ensures Noted(Step(s, op).past[r], e) == Noted(s.past[r], e) + if Happens(e, s, op, r) then 1 else 0
  {
    match op
    case Work(w, o) => WorkIsNoted(s, w, o, e, r);
    case Dispatch(d, o) => DispatchIsNoted(s, d, o, e, r);
    case _ =>
  }

  /** A row begins with nothing noted, and born skipped if its decision named a reason. */
  lemma BirthIsNoted(s: State, op: Op, r: RowId)
    requires Can(s, op) && r !in s.past && r in Step(s, op).past
    ensures op.Dispatch? && op.dop.Upsert? && r == s.nextId
    ensures Step(s, op).past[r] == Past(op.dop.decision.skipReason.Some?, 0, 0, 0)
  {
    if op.Work? {
      WorkMovesOne(s, op.w, op.wop);
    }
  }

  lemma NothingBeforeBirth(s: State, op: Op, e: Event, r: RowId)
    requires Delivery.Inv(s) && Can(s, op) && r !in s.past
    ensures !Happens(e, s, op, r)
  {
  }

  /** In every interleaving the notes on a row are what the steps so far did to it. */
  lemma {:induction false} NotesTellTheRun(tr: seq<State>, ops: seq<Op>, e: Event, i: nat, r: RowId)
    requires Behaviour(tr, ops) && i < |tr|
    ensures Times(tr, ops, e, i, r) == if r in tr[i].past then Noted(tr[i].past[r], e) else 0
  {
    if i > 0 {
      var s, op := tr[i - 1], ops[i - 1];
      NotesTellTheRun(tr, ops, e, i - 1, r);
      Delivery.InvAlways(tr, ops, i - 1);
      if r in s.past {
        assert Delivery.RowOk(s, r);
        StepIsNoted(s, op, e, r);
      } else {
        NothingBeforeBirth(s, op, e, r);
        if r in Step(s, op).past {
          BirthIsNoted(s, op, r);
        }
      }
    }
  }

  /** So, counted on the run alone: a row is handed to the provider at most as often as it was
      claimed, and claimed at most once more often than it was put back. */
  lemma CallsAreBounded(tr: seq<State>, ops: seq<Op>, i: nat, r: RowId)
    requires Behaviour(tr, ops) && i < |tr|
    ensures Times(tr, ops, Called, i, r) <= Times(tr, ops, Taken, i, r) <= 1 + Times(tr, ops, Returned, i, r)
    ensures r in tr[i].rows ==> tr[i].rows[r].attempts == Times(tr, ops, Taken, i, r)
  {
    Delivery.InvAlways(tr, ops, i);
    NotesTellTheRun(tr, ops, Called, i, r);
    NotesTellTheRun(tr, ops, Taken, i, r);
    NotesTellTheRun(tr, ops, Returned, i, r);
    if r in tr[i].past {
      assert Delivery.RowOk(tr[i], r);
    }
  }
}
