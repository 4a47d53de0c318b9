/** Counting facts about the ledger and the workers' uncommitted outcomes. */
module CampaignCounting {
  import opened CampaignProtocol

  function If(b: bool): nat {
    if b then 1 else 0
  }

  lemma TallyUpdate(rows: map<RowId, Row>, r: RowId, row: Row, st: RowStatus)
    requires r in rows
    ensures Tally(rows[r := row], st) == Tally(rows, st) - If(rows[r].status == st) + If(row.status == st)
  {
    var was, now := WithStatus(rows, st), WithStatus(rows[r := row], st);
    var rest := was - {r};
    assert now == if row.status == st then rest + {r} else rest;
    assert was == if rows[r].status == st then rest + {r} else rest;
  }

  lemma TallyInsert(rows: map<RowId, Row>, r: RowId, row: Row, st: RowStatus)
    requires r !in rows
    ensures Tally(rows[r := row], st) == Tally(rows, st) + If(row.status == st)
    ensures |rows[r := row]| == |rows| + 1
  {
    var was, now := WithStatus(rows, st), WithStatus(rows[r := row], st);
    assert now == was + if row.status == st then {r} else {};
  }

  lemma DisjointSizes(a: set<RowId>, b: set<RowId>)
    requires a !! b
    ensures |a + b| == |a| + |b|
  {
  }

  lemma RetagMembers(rows: map<RowId, Row>, which: set<RowId>, to: RowStatus, st: RowStatus)
    requires which <= rows.Keys
    ensures WithStatus(Retag(rows, which, to), st)
            == if st == to then WithStatus(rows, st) + which else WithStatus(rows, st) - which
  {
  }

  /** `updateMany` from statuses other than `to`, and what it leaves alone. */
  lemma RetagTallies(rows: map<RowId, Row>, which: set<RowId>, to: RowStatus)
    requires which <= rows.Keys
    requires forall r :: r in which ==> rows[r].status != to
    ensures Retag(rows, which, to).Keys == rows.Keys && |Retag(rows, which, to)| == |rows|
    ensures Tally(Retag(rows, which, to), to) == Tally(rows, to) + |which|
  {
    var t := Retag(rows, which, to);
    assert t.Keys == rows.Keys;
    assert |t| == |t.Keys| && |rows| == |rows.Keys|;
    RetagMembers(rows, which, to, to);
    DisjointSizes(WithStatus(rows, to), which);
  }

  lemma RetagKeeps(rows: map<RowId, Row>, which: set<RowId>, to: RowStatus, st: RowStatus)
    requires which <= rows.Keys && st != to
    requires forall r :: r in which ==> rows[r].status != st
    ensures WithStatus(Retag(rows, which, to), st) == WithStatus(rows, st)
  {
  }

  lemma FiveSizes(a: set<RowId>, b: set<RowId>, c: set<RowId>, d: set<RowId>, e: set<RowId>)
    requires a !! b !! c !! d !! e
    ensures |a + b + c + d + e| == |a| + |b| + |c| + |d| + |e|
  {
    DisjointSizes(a, b);
    DisjointSizes(a + b, c);
    DisjointSizes(a + b + c, d);
    DisjointSizes(a + b + c + d, e);
  }

  lemma KeysByStatus(rows: map<RowId, Row>)
    ensures rows.Keys == WithStatus(rows, Pending) + WithStatus(rows, Claimed) + WithStatus(rows, Sent)
                         + WithStatus(rows, Failed) + WithStatus(rows, Skipped)
  {
  }

  /** The five statuses partition the ledger. */
  lemma StatusesPartition(rows: map<RowId, Row>)
    ensures |rows| == Tally(rows, Pending) + Tally(rows, Claimed) + Tally(rows, Sent)
                      + Tally(rows, Failed) + Tally(rows, Skipped)
  {
    KeysByStatus(rows);
    FiveSizes(WithStatus(rows, Pending), WithStatus(rows, Claimed), WithStatus(rows, Sent),
              WithStatus(rows, Failed), WithStatus(rows, Skipped));
    assert |rows| == |rows.Keys|;
  }

  function Outcome(k: Worker, sent: bool): nat {
    if sent then k.sent else k.failed
  }

  /** Outcomes the workers counted but have not yet added to the campaign's counters. */
  function Uncommitted(ws: seq<Worker>, sent: bool): nat {
    if ws == [] then 0 else Uncommitted(ws[..|ws| - 1], sent) + Outcome(ws[|ws| - 1], sent)
  }

  lemma {:induction false} UncommittedUpdate(ws: seq<Worker>, w: nat, k: Worker, sent: bool)
    requires w < |ws|
    ensures Uncommitted(ws[w := k], sent) == Uncommitted(ws, sent) - Outcome(ws[w], sent) + Outcome(k, sent)
  {
    var n := |ws| - 1;
    if w == n {
      assert ws[w := k][..n] == ws[..n];
    } else {
      assert ws[w := k][..n] == ws[..n][w := k];
      UncommittedUpdate(ws[..n], w, k, sent);
    }
  }

  lemma UncommittedAppend(ws: seq<Worker>, k: Worker, sent: bool)
    ensures Uncommitted(ws + [k], sent) == Uncommitted(ws, sent) + Outcome(k, sent)
  {
    assert (ws + [k])[..|ws|] == ws;
  }

  lemma {:induction false} UncommittedNone(ws: seq<Worker>, sent: bool)
    requires forall w :: 0 <= w < |ws| ==> Outcome(ws[w], sent) == 0
    ensures Uncommitted(ws, sent) == 0
  {
    if ws != [] {
      UncommittedNone(ws[..|ws| - 1], sent);
      assert Outcome(ws[|ws| - 1], sent) == 0;
    }
  }
}
