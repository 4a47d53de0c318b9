/** From the audience decision to the sends: no address gets the message twice. */
module CampaignAddresses {
  import opened Audience
  import opened CampaignProtocol
  import Delivery = CampaignDelivery

  /** Every row the run inserts is a decision of one pass over `cs`. */
  ghost predicate FromOnePass(ops: seq<Op>, snap: Snapshot, cs: seq<Contact>) {
    forall i {:trigger ops[i]} :: 0 <= i < |ops| ==> Inserts(ops[i], snap, cs)
  }

  predicate Inserts(op: Op, snap: Snapshot, cs: seq<Contact>) {
    op.Dispatch? && op.dop.Upsert? ==> op.dop.decision in Decide(snap, cs, {}).decisions
  }

  ghost predicate NothingDeleted(ops: seq<Op>) {
    forall i {:trigger ops[i]} :: 0 <= i < |ops| ==> !(ops[i].Dispatch? && ops[i].dop.Overflow?)
  }

  /** Row `r` was written for the `j`-th contact. */
  ghost predicate WrittenFor(s: State, r: RowId, j: nat, snap: Snapshot, cs: seq<Contact>)
    requires r in s.rows && j < |cs|
  {
    var d := Decide(snap, cs, {}).decisions[j];
    && s.rows[r].contact == cs[j].id && s.rows[r].destination == d.destination
    && r in s.past && (s.past[r].bornSkipped <==> d.skipReason.Some?)
  }

  ghost predicate Traced(s: State, snap: Snapshot, cs: seq<Contact>) {
    && (forall r :: r in s.rows ==> exists j :: 0 <= j < |cs| && WrittenFor(s, r, j, snap, cs))
    && (forall q, r :: q in s.rows && r in s.rows && s.rows[q].contact == s.rows[r].contact ==> q == r)
  }

  // ---------------------------------------------------------------- rows keep their contact and address

  /** The row `r` of `t` is that of `s`, its status and attempts apart. */
  ghost predicate SameFace(s: State, t: State, r: RowId)
    requires r in t.rows
  {
    && r in s.rows && t.rows[r].contact == s.rows[r].contact && t.rows[r].destination == s.rows[r].destination
    && (r in s.past ==> r in t.past && t.past[r].bornSkipped == s.past[r].bornSkipped)
  }

  lemma ApiKeepsFace(s: State, a: ApiOp, r: RowId)
    requires CanApi(s, a) && r in ApiStep(s, a).rows
    ensures SameFace(s, ApiStep(s, a), r)
  {
  }

  lemma WorkKeepsFace(s: State, w: nat, o: WorkOp, r: RowId)
    requires CanWork(s, w, o) && r in WorkStep(s, w, o).rows
    ensures SameFace(s, WorkStep(s, w, o), r)
  {
    WorkMovesOne(s, w, o);
    if o.TryClaim? {
    } else if o.WriteOutcome? {
    } else {
    }
  }

  lemma DispatchKeepsFace(s: State, d: nat, o: DispatchOp, r: RowId)
    requires CanDispatch(s, d, o) && r in DispatchStep(s, d, o).rows
    requires o.Upsert? ==> r != s.nextId
    ensures SameFace(s, DispatchStep(s, d, o), r)
  {
  }

  predicate InsertsRow(s: State, op: Op, r: RowId) {
    op.Dispatch? && op.dop.Upsert? && r == s.nextId
  }

  lemma StepKeepsFace(s: State, op: Op, r: RowId)
    requires Can(s, op) && r in Step(s, op).rows && !InsertsRow(s, op, r)
    ensures SameFace(s, Step(s, op), r)
  {
    match op
    case Api(a) => ApiKeepsFace(s, a, r);
    case Work(w, o) => WorkKeepsFace(s, w, o, r);
    case Dispatch(d, o) => DispatchKeepsFace(s, d, o, r);
    case _ =>
  }

  /** A row just inserted is the decision's, and its contact had none. */
  lemma InsertedRow(s: State, op: Op)
    requires Can(s, op) && s.nextId !in s.rows && InsertsRow(s, op, s.nextId) && s.nextId in Step(s, op).rows
    ensures var t, d := Step(s, op), op.dop.decision;
            && !HasContact(s.rows, d.contactId) && t.rows[s.nextId] == FreshRow(d)
            && s.nextId in t.past && t.past[s.nextId].bornSkipped == d.skipReason.Some?
  {
  }

  lemma NewRowIsTraced(s: State, op: Op, snap: Snapshot, cs: seq<Contact>) returns (j: nat)
    requires Can(s, op) && s.nextId !in s.rows && InsertsRow(s, op, s.nextId) && s.nextId in Step(s, op).rows
    requires Inserts(op, snap, cs)
    ensures j < |cs| && WrittenFor(Step(s, op), s.nextId, j, snap, cs)
  {
    InsertedRow(s, op);
    var ds := Decide(snap, cs, {}).decisions;
    j :| 0 <= j < |ds| && ds[j] == op.dop.decision;
    DecisionsAreLegal(snap, cs, {}, j);
  }

  lemma RowStaysTraced(s: State, op: Op, snap: Snapshot, cs: seq<Contact>, r: RowId)
    requires Traced(s, snap, cs) && Can(s, op) && Inserts(op, snap, cs) && s.nextId !in s.rows && r in Step(s, op).rows
    ensures exists j :: 0 <= j < |cs| && WrittenFor(Step(s, op), r, j, snap, cs)
  {
    if InsertsRow(s, op, r) {
      var j := NewRowIsTraced(s, op, snap, cs);
    } else {
      StepKeepsFace(s, op, r);
      var j :| 0 <= j < |cs| && WrittenFor(s, r, j, snap, cs);
      assert WrittenFor(Step(s, op), r, j, snap, cs);
    }
  }

  lemma ContactsStayDistinct(s: State, op: Op, q: RowId, r: RowId)
    requires Can(s, op) && s.nextId !in s.rows && q in Step(s, op).rows && r in Step(s, op).rows && q != r
    requires forall a, b :: a in s.rows && b in s.rows && s.rows[a].contact == s.rows[b].contact ==> a == b
    ensures Step(s, op).rows[q].contact != Step(s, op).rows[r].contact
  {
    if InsertsRow(s, op, q) {
      InsertedRow(s, op);
      StepKeepsFace(s, op, r);
      assert s.rows[r].contact != op.dop.decision.contactId;
    } else if InsertsRow(s, op, r) {
      InsertedRow(s, op);
      StepKeepsFace(s, op, q);
      assert s.rows[q].contact != op.dop.decision.contactId;
    } else {
      StepKeepsFace(s, op, q);
      StepKeepsFace(s, op, r);
    }
  }

  lemma StepKeepsTraced(s: State, op: Op, snap: Snapshot, cs: seq<Contact>)
    requires Traced(s, snap, cs) && Can(s, op) && Inserts(op, snap, cs) && s.nextId !in s.rows
    ensures Traced(Step(s, op), snap, cs)
  {
    var t := Step(s, op);
    forall r | r in t.rows ensures exists j :: 0 <= j < |cs| && WrittenFor(t, r, j, snap, cs) {
      RowStaysTraced(s, op, snap, cs, r);
    }
    forall q, r | q in t.rows && r in t.rows && q != r ensures t.rows[q].contact != t.rows[r].contact {
      ContactsStayDistinct(s, op, q, r);
    }
  }

  lemma NextIdIsFree(s: State)
    requires Delivery.Inv(s)
    ensures s.nextId !in s.rows
  {
    forall r | r in s.past ensures r < s.nextId {
      assert Delivery.RowOk(s, r);
    }
  }

  lemma {:induction false} TracedAlways(tr: seq<State>, ops: seq<Op>, snap: Snapshot, cs: seq<Contact>, i: nat)
    requires Behaviour(tr, ops) && FromOnePass(ops, snap, cs) && i < |tr|
    ensures Traced(tr[i], snap, cs)
  {
    if i > 0 {
      TracedAlways(tr, ops, snap, cs, i - 1);
      Delivery.InvAlways(tr, ops, i - 1);
      NextIdIsFree(tr[i - 1]);
      StepKeepsTraced(tr[i - 1], ops[i - 1], snap, cs);
    }
  }

  // ---------------------------------------------------------------- one message per address

  lemma SameAddressSameRow(s: State, snap: Snapshot, cs: seq<Contact>, q: RowId, r: RowId)
    requires Traced(s, snap, cs) && q in s.rows && r in s.rows && q in s.past && r in s.past
    requires !s.past[q].bornSkipped && !s.past[r].bornSkipped && s.rows[q].destination == s.rows[r].destination
    ensures q == r
  {
    var j :| 0 <= j < |cs| && WrittenFor(s, q, j, snap, cs);
    var k :| 0 <= k < |cs| && WrittenFor(s, r, k, snap, cs);
    if j < k {
      PendingDestinationsDistinct(snap, cs, j, k);
    } else if k < j {
      PendingDestinationsDistinct(snap, cs, k, j);
    }
  }

  /** In the ledger as it stands at any moment of any interleaving, at most one row with a
      given address has ever been handed to the provider, and no more often than once plus
      the times it was put back. */
  lemma OneRowPerAddress(tr: seq<State>, ops: seq<Op>, snap: Snapshot, cs: seq<Contact>, i: nat, q: RowId, r: RowId)
    requires Behaviour(tr, ops) && FromOnePass(ops, snap, cs) && i < |tr|
    requires q in tr[i].rows && r in tr[i].rows && tr[i].rows[q].destination == tr[i].rows[r].destination
    ensures q in tr[i].past && r in tr[i].past
    ensures tr[i].past[q].sends > 0 && tr[i].past[r].sends > 0 ==> q == r
    ensures tr[i].past[r].sends <= 1 + tr[i].past[r].putBacks
  {
    Delivery.DeliveryBound(tr, ops, i, q);
    Delivery.DeliveryBound(tr, ops, i, r);
    if tr[i].past[q].sends > 0 && tr[i].past[r].sends > 0 {
      SentWasNotSkipped(tr, ops, i, q);
      SentWasNotSkipped(tr, ops, i, r);
      TracedAlways(tr, ops, snap, cs, i);
      SameAddressSameRow(tr[i], snap, cs, q, r);
    }
  }

  lemma SentWasNotSkipped(tr: seq<State>, ops: seq<Op>, i: nat, r: RowId)
    requires Behaviour(tr, ops) && i < |tr| && r in tr[i].past && tr[i].past[r].sends > 0
    ensures !tr[i].past[r].bornSkipped
  {
    if tr[i].past[r].bornSkipped {
      Delivery.SkipIsPermanent(tr, ops, i, r);
      assert false;
    }
  }

  lemma StepForgetsNoRow(s: State, op: Op)
    requires Can(s, op) && !(op.Dispatch? && op.dop.Overflow?) && s.past.Keys == s.rows.Keys
    ensures Step(s, op).past.Keys == Step(s, op).rows.Keys
  {
    if op.Work? {
      WorkMovesOne(s, op.w, op.wop);
    }
  }

  lemma {:induction false} NoRowForgotten(tr: seq<State>, ops: seq<Op>, i: nat)
    requires Behaviour(tr, ops) && NothingDeleted(ops) && i < |tr|
    ensures tr[i].past.Keys == tr[i].rows.Keys
  {
    if i > 0 {
      NoRowForgotten(tr, ops, i - 1);
      StepForgetsNoRow(tr[i - 1], ops[i - 1]);
    }
  }

  /** Of all rows that ever were, when none was deleted: an address is sent to through one
      row only, and once only unless that row was put back. */
  lemma NoAddressTwice(tr: seq<State>, ops: seq<Op>, snap: Snapshot, cs: seq<Contact>, i: nat, q: RowId, r: RowId)
    requires Behaviour(tr, ops) && FromOnePass(ops, snap, cs) && NothingDeleted(ops) && i < |tr|
    requires q in tr[i].past && r in tr[i].past && tr[i].past[q].sends > 0 && tr[i].past[r].sends > 0
    ensures q in tr[i].rows && r in tr[i].rows
    ensures tr[i].rows[q].destination == tr[i].rows[r].destination ==> q == r
    ensures tr[i].past[r].putBacks == 0 ==> tr[i].past[r].sends == 1
  {
    NoRowForgotten(tr, ops, i);
    if tr[i].rows[q].destination == tr[i].rows[r].destination {
      OneRowPerAddress(tr, ops, snap, cs, i, q, r);
    }
    Delivery.DeliveryBound(tr, ops, i, r);
  }
}
