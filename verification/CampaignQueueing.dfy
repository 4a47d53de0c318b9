/** The queueing loop of a dispatch: every pending row into exactly one send job. */
module CampaignQueueing {
  import opened CampaignProtocol
  import opened CampaignSendBatch

  /** What find({ status: 'pending' }).sort({ _id: 1 }) yields. */
  ghost predicate PendingInOrder(rows: map<RowId, Row>, cursor: seq<RowId>) {
    && Ascending(cursor)
    && forall r :: r in cursor <==> r in rows && rows[r].status == Pending
  }

  function Flatten(batches: seq<seq<RowId>>): seq<RowId> {
    if batches == [] then [] else Flatten(batches[..|batches| - 1]) + batches[|batches| - 1]
  }

  /** Every job but the last is full, and the last is neither empty nor too long. */
  ghost predicate WellFilled(batches: seq<seq<RowId>>) {
    forall i :: 0 <= i < |batches| ==>
      0 < |batches[i]| <= 100 && (i < |batches| - 1 ==> |batches[i]| == 100)
  }

  ghost predicate AllFull(batches: seq<seq<RowId>>) {
    forall i :: 0 <= i < |batches| ==> |batches[i]| == SEND_BATCH_SIZE
  }

  /** The dispatch has queued the first `done` rows of the cursor. */
  ghost predicate QueuedUpTo(s: State, d: nat, cursor: seq<RowId>, done: nat)
    requires done <= |cursor|
  {
    d < |s.dispatchers| && s.dispatchers[d] == Queueing(if done == 0 then 0 else cursor[done - 1] + 1, done)
  }

  lemma NextJobIsLegal(s: State, d: nat, cursor: seq<RowId>, done: nat, upto: nat)
    requires PendingInOrder(s.rows, cursor) && done < upto <= |cursor| && upto - done <= SEND_BATCH_SIZE
    requires QueuedUpTo(s, d, cursor, done)
    ensures CanDispatch(s, d, Enqueue(cursor[done..upto]))
    ensures var t := DispatchStep(s, d, Enqueue(cursor[done..upto]));
            t.rows == s.rows && t.jobs == s.jobs + multiset{cursor[done..upto]} && QueuedUpTo(t, d, cursor, upto)
  {
    var ids := cursor[done..upto];
    assert ids[0] == cursor[done] && ids[|ids| - 1] == cursor[upto - 1];
    forall r | r in ids ensures r in s.rows && s.rows[r].status == Pending {
      assert r in cursor;
    }
    forall r | r in s.rows && s.rows[r].status == Pending && s.dispatchers[d].from <= r <= ids[|ids| - 1]
      ensures r in ids
    {
      assert r in cursor;
      var j :| 0 <= j < |cursor| && cursor[j] == r;
      assert done <= j < upto;
      assert ids[j - done] == r;
    }
  }

  lemma FlattenOneMore(batches: seq<seq<RowId>>, b: seq<RowId>)
    ensures Flatten(batches + [b]) == Flatten(batches) + b
  {
    assert (batches + [b])[..|batches|] == batches;
  }

  /** `batches` are the jobs put on the queue since the stores were in state `start`, and
      they hold the first `queued` rows of the cursor. */
  ghost predicate SoFar(start: State, s: State, d: nat, cursor: seq<RowId>, batches: seq<seq<RowId>>, queued: nat) {
    && queued <= |cursor| && QueuedUpTo(s, d, cursor, queued)
    && s.rows == start.rows && s.jobs == start.jobs + multiset(batches)
    && Flatten(batches) == cursor[..queued]
  }

  lemma OneMoreJob(start: State, s: State, t: State, d: nat, cursor: seq<RowId>, batches: seq<seq<RowId>>,
                   queued: nat, batch: seq<RowId>)
    requires SoFar(start, s, d, cursor, batches, queued)
    requires queued + |batch| <= |cursor| && batch == cursor[queued..queued + |batch|]
    requires t.rows == s.rows && t.jobs == s.jobs + multiset{batch} && QueuedUpTo(t, d, cursor, queued + |batch|)
    ensures SoFar(start, t, d, cursor, batches + [batch], queued + |batch|)
  {
    FlattenOneMore(batches, batch);
    assert cursor[..queued] + batch == cursor[..queued + |batch|];
  }

  method EnqueueSendBatch(st: Stores, d: nat, batch: seq<RowId>, ghost start: State, ghost cursor: seq<RowId>,
                          ghost batches: seq<seq<RowId>>, ghost queued: nat)
    requires st.Valid() && PendingInOrder(start.rows, cursor) && SoFar(start, st.s, d, cursor, batches, queued)
    requires 0 < |batch| <= SEND_BATCH_SIZE
    requires queued + |batch| <= |cursor| && batch == cursor[queued..queued + |batch|]
    modifies st
    ensures st.Valid() && st.ops == old(st.ops) + [Dispatch(d, Enqueue(batch))]
    ensures SoFar(start, st.s, d, cursor, batches + [batch], queued + |batch|)
  {
    ghost var before := st.s;
    NextJobIsLegal(before, d, cursor, queued, queued + |batch|);
    st.Take(Dispatch(d, Enqueue(batch)));
    OneMoreJob(start, before, st.s, d, cursor, batches, queued, batch);
  }

  lemma ReadyToFinish(start: State, s: State, d: nat, cursor: seq<RowId>, batches: seq<seq<RowId>>)
    requires PendingInOrder(start.rows, cursor) && SoFar(start, s, d, cursor, batches, |cursor|)
    ensures CanDispatch(s, d, Finish) && Flatten(batches) == cursor
  {
    assert cursor[..|cursor|] == cursor;
    forall r | r in cursor ensures r < s.dispatchers[d].from {
      var j :| 0 <= j < |cursor| && cursor[j] == r;
      assert cursor[j] <= cursor[|cursor| - 1];
    }
  }

  /** `batch` holds the rows read from the cursor after the first `queued`, up to the `i`-th. */
  ghost predicate ReadSince(cursor: seq<RowId>, queued: nat, i: nat, batch: seq<RowId>) {
    queued + |batch| == i <= |cursor| && batch == cursor[queued..i]
  }

  lemma ReadOne(cursor: seq<RowId>, queued: nat, i: nat, batch: seq<RowId>)
    requires ReadSince(cursor, queued, i, batch) && i < |cursor|
    ensures ReadSince(cursor, queued, i + 1, batch + [cursor[i]])
  {
  }

  /** The full jobs, and the rows read since the last of them. */
  method QueueFullBatches(st: Stores, d: nat, cursor: seq<RowId>)
    returns (queued: nat, batch: seq<RowId>, ghost batches: seq<seq<RowId>>)
    requires st.Valid() && PendingInOrder(st.s.rows, cursor) && QueuedUpTo(st.s, d, cursor, 0)
    modifies st
    ensures st.Valid() && SoFar(old(st.s), st.s, d, cursor, batches, queued) && AllFull(batches)
    ensures ReadSince(cursor, queued, |cursor|, batch) && |batch| < SEND_BATCH_SIZE
  {
    queued, batch, batches := 0, [], [];
    for i := 0 to |cursor|
      invariant ReadSince(cursor, queued, i, batch) && |batch| < SEND_BATCH_SIZE
      invariant st.Valid() && SoFar(old(st.s), st.s, d, cursor, batches, queued) && AllFull(batches)
    {
      ReadOne(cursor, queued, i, batch);
      batch := batch + [cursor[i]];
      if |batch| >= SEND_BATCH_SIZE {
        EnqueueSendBatch(st, d, batch, old(st.s), cursor, batches, queued);
        batches := batches + [batch];
        queued := queued + |batch|;
        batch := [];
      }
    }
  }

  /** Nothing else happens meanwhile. The jobs put on the queue hold every pending row once,
      in id order, and the dispatch may then finish; the result is the number of rows. */
  method QueuePending(st: Stores, d: nat, cursor: seq<RowId>) returns (queued: nat, ghost batches: seq<seq<RowId>>)
    requires st.Valid() && PendingInOrder(st.s.rows, cursor) && QueuedUpTo(st.s, d, cursor, 0)
    modifies st
    ensures st.Valid() && st.s.rows == old(st.s).rows
    ensures Flatten(batches) == cursor && WellFilled(batches)
    ensures st.s.jobs == old(st.s).jobs + multiset(batches)
    ensures queued == |cursor| && CanDispatch(st.s, d, Finish) && st.s.dispatchers[d].queued == queued
  {
    var batch: seq<RowId>;
    queued, batch, batches := QueueFullBatches(st, d, cursor);
    if |batch| > 0 {
      EnqueueSendBatch(st, d, batch, old(st.s), cursor, batches, queued);
      batches := batches + [batch];
      queued := queued + |batch|;
    }
    ReadyToFinish(old(st.s), st.s, d, cursor, batches);
  }

  // ---------------------------------------------------------------- one job each

  lemma {:induction false} FlattenMembers(batches: seq<seq<RowId>>, r: RowId)
    ensures r in Flatten(batches) <==> exists i :: 0 <= i < |batches| && r in batches[i]
  {
    if batches != [] {
      var n := |batches| - 1;
      FlattenMembers(batches[..n], r);
      if i :| 0 <= i < |batches| && r in batches[i] {
        if i < n {
          assert r in batches[..n][i];
        }
      }
      if i :| 0 <= i < n && r in batches[..n][i] {
        assert r in batches[i];
      }
    }
  }

  lemma {:induction false} LaterJobsLater(batches: seq<seq<RowId>>, i: nat, j: nat, a: RowId, b: RowId)
    requires Ascending(Flatten(batches)) && i < j < |batches| && a in batches[i] && b in batches[j]
    ensures a < b
  {
    var n := |batches| - 1;
    var front := Flatten(batches[..n]);
    if j == n {
      FlattenMembers(batches[..n], a);
      assert a in batches[..n][i];
      var p :| 0 <= p < |front| && front[p] == a;
      var q :| 0 <= q < |batches[n]| && batches[n][q] == b;
      assert Flatten(batches)[p] == a && Flatten(batches)[|front| + q] == b;
    } else {
      assert Ascending(front) by {
        assert forall k :: 0 <= k < |front| ==> front[k] == Flatten(batches)[k];
      }
      LaterJobsLater(batches[..n], i, j, a, b);
    }
  }

  /** A pending row is in exactly one of the jobs, and the jobs follow id order. */
  lemma EachRowInOneJob(rows: map<RowId, Row>, cursor: seq<RowId>, batches: seq<seq<RowId>>, r: RowId)
    requires PendingInOrder(rows, cursor) && Flatten(batches) == cursor && r in rows && rows[r].status == Pending
    ensures exists i :: 0 <= i < |batches| && r in batches[i]
                        && forall j :: 0 <= j < |batches| && r in batches[j] ==> j == i
  {
    FlattenMembers(batches, r);
    var i :| 0 <= i < |batches| && r in batches[i];
    forall j | 0 <= j < |batches| && r in batches[j] ensures j == i {
      if j < i {
        LaterJobsLater(batches, j, i, r, r);
      } else if i < j {
        LaterJobsLater(batches, i, j, r, r);
      }
    }
  }
}
