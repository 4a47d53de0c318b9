/** Writing the audience into the recipient ledger: batched, restartable, bounded. */
module CampaignMaterialise {
  import opened Options
  import opened Audience
  import opened CampaignProtocol

  const CAMPAIGN_MATERIALISE_BATCH_SIZE: nat := 500
  const CAMPAIGN_MAX_AUDIENCE: nat := 500_000

  /** The campaign's rows by contact: the unique index on campaign and contact. */
  type Ledger = map<ContactId, Row>

  /** One `$setOnInsert` upsert: a row that exists is left as it is. */
  function UpsertOne(ledger: Ledger, d: RecipientDecision): Ledger {
    if d.contactId in ledger then ledger else ledger[d.contactId := FreshRow(d)]
  }

  function UpsertAll(ledger: Ledger, ds: seq<RecipientDecision>): Ledger {
    if ds == [] then ledger else UpsertOne(UpsertAll(ledger, ds[..|ds| - 1]), ds[|ds| - 1])
  }

  ghost predicate Submap(a: Ledger, b: Ledger) {
    forall c :: c in a ==> c in b && a[c] == b[c]
  }

  ghost predicate DistinctContacts(cs: seq<Contact>) {
    forall i, j :: 0 <= i < j < |cs| ==> cs[i].id != cs[j].id
  }

  ghost predicate DistinctIds(ds: seq<RecipientDecision>) {
    forall i, j :: 0 <= i < j < |ds| ==> ds[i].contactId != ds[j].contactId
  }

  /** What a run that stopped half-way may leave: nothing lost, nothing foreign. */
  ghost predicate PartOf(before: Ledger, after: Ledger, ds: seq<RecipientDecision>) {
    Submap(before, after) && Submap(after, UpsertAll(before, ds))
  }

  // ---------------------------------------------------------------- the program

  class Recipients {
    var rows: Ledger

    /** An unordered bulk write. A process or connection lost meanwhile leaves any part of it done. */
    method BulkWrite(ds: seq<RecipientDecision>, lost: bool)
      requires DistinctIds(ds)
      modifies this
      ensures !lost ==> rows == UpsertAll(old(rows), ds)
      ensures PartOf(old(rows), rows, ds)
    {
      for i := 0 to |ds|
        invariant !lost ==> rows == UpsertAll(old(rows), ds[..i])
        invariant PartOf(old(rows), rows, ds[..i])
      {
        var missed: bool := *;
        UpsertPrefix(old(rows), ds, i);
        if !lost || !missed {
          FreshInPrefix(old(rows), rows, ds, i);
          rows := UpsertOne(rows, ds[i]);
        }
      }
      assert ds[..|ds|] == ds;
    }

    method DeleteMany()
      modifies this
      ensures rows == map[]
    {
      rows := map[];
    }

    /** countDocuments, over every row or over the pending ones. */
    method Count(onlyPending: bool) returns (n: nat)
      ensures n == (if onlyPending then |PendingOf(rows)| else |rows|) && |PendingOf(rows)| <= |rows|
    {
      PendingAreRows(rows);
      n := if onlyPending then |PendingOf(rows)| else |rows|;
    }
  }

  function PendingOf(rows: Ledger): set<ContactId> {
    set c | c in rows && rows[c].status == Pending
  }

  lemma PendingAreRows(rows: Ledger)
    ensures |PendingOf(rows)| <= |rows|
  {
    assert PendingOf(rows) <= rows.Keys && |rows| == |rows.Keys|;
    assert |rows.Keys - PendingOf(rows)| == |rows.Keys| - |PendingOf(rows)|;
  }

  /** The counters as they were, with size, queued and skipped those of the ledger. */
  predicate Counts(stats: Stats, before: Stats, rows: Ledger) {
    stats == before.(audienceSize := |rows|, queued := |PendingOf(rows)|, skipped := |rows| - |PendingOf(rows)|)
  }

  ghost function LossesBefore(lost: set<nat>, n: nat): nat {
    if n == 0 then 0 else LossesBefore(lost, n - 1) + if n - 1 in lost then 1 else 0
  }

  datatype Result = Materialised | TooLarge | Crashed

  /** `lost` fixes beforehand at which of its writes the process or its connection is lost. */
  class CampaignRunner {
    const recipients: Recipients
    const lost: set<nat>
    var writes: nat
    var status: CampaignStatus
    var stats: Stats

    constructor (recipients: Recipients, lost: set<nat>, status: CampaignStatus)
      ensures this.recipients == recipients && this.lost == lost && this.status == status
      ensures stats == NO_STATS && writes == 0
    {
      this.recipients, this.lost, this.status, stats, writes := recipients, lost, status, NO_STATS, 0;
    }

    /** At how many of the writes so far all was lost. */
    ghost function Losses(): nat
      reads this`writes
    {
      LossesBefore(lost, writes)
    }

    /** Counts a write, and tells whether it is one at which all is lost. */
    method IsLost() returns (gone: bool)
      modifies this`writes
      ensures gone == (old(writes) in lost) && writes == old(writes) + 1
      ensures Losses() == old(Losses()) + if gone then 1 else 0
    {
      gone := writes in lost;
      writes := writes + 1;
    }

    method Abort()
      modifies this`status
      ensures status == (if old(status) == Sending then Paused else old(status))
    {
      if status == Sending {
        status := Paused;
      }
    }

    /** `batch` is the stretch of the audience `cs` from `written` up to `upto`. */
    method WriteRecipients(s: Snapshot, batch: seq<Contact>, seen: SeenDestinations,
                           ghost cs: seq<Contact>, ghost written: nat, ghost upto: nat, ghost before: Ledger)
      returns (ok: bool)
      requires DistinctContacts(cs) && written <= upto <= |cs| && batch == cs[written..upto]
      requires seen.members == SeenAfter(s, cs, written)
      requires recipients.rows == LedgerAfter(s, cs, written, before)
      modifies this`writes, recipients, seen
      ensures Losses() >= old(Losses()) && (ok <==> Losses() == old(Losses())) && writes == old(writes) + 1
      ensures seen.members == SeenAfter(s, cs, upto)
      ensures ok ==> recipients.rows == LedgerAfter(s, cs, upto, before)
      ensures LeftBehind(s, cs, before, recipients.rows)
    {
      assert DistinctContacts(batch);
      var decisions := DecideBatch(s, batch, seen);
      DecisionsAreDistinct(s, batch, SeenAfter(s, cs, written));
      var gone := IsLost();
      recipients.BulkWrite(decisions, gone);
      ok := !gone;
      NextBatch(s, cs, before, recipients.rows, written, upto);
    }

    method WriteCounts()
      modifies this`stats
      ensures Counts(stats, old(stats), recipients.rows)
    {
      var audienceSize := recipients.Count(false);
      var sendable := recipients.Count(true);
      stats := stats.(audienceSize := audienceSize, queued := sendable, skipped := audienceSize - sendable);
    }

    /** The end of one turn of the loop: a batch that is full is written and a new one begun. */
    method WriteIfFull(s: Snapshot, batch: seq<Contact>, seen: SeenDestinations,
                       ghost cs: seq<Contact>, ghost written: nat, ghost scanned: nat, ghost before: Ledger)
      returns (ok: bool, next: seq<Contact>, ghost upto: nat)
      requires DistinctContacts(cs) && written <= scanned <= |cs| && batch == cs[written..scanned]
      requires |batch| <= CAMPAIGN_MATERIALISE_BATCH_SIZE
      requires seen.members == SeenAfter(s, cs, written)
      requires recipients.rows == LedgerAfter(s, cs, written, before)
      modifies this`writes, recipients, seen
      ensures Losses() >= old(Losses()) && (ok <==> Losses() == old(Losses()))
      ensures written <= upto <= scanned && next == cs[upto..scanned] && |next| < CAMPAIGN_MATERIALISE_BATCH_SIZE
      ensures upto - written == 500 * (writes - old(writes))
      ensures seen.members == SeenAfter(s, cs, upto)
      ensures ok ==> recipients.rows == LedgerAfter(s, cs, upto, before)
      ensures !ok ==> LeftBehind(s, cs, before, recipients.rows)
    {
      if |batch| >= CAMPAIGN_MATERIALISE_BATCH_SIZE {
        ok := WriteRecipients(s, batch, seen, cs, written, scanned, before);
        next, upto := [], scanned;
      } else {
        ok, next, upto := true, batch, written;
      }
    }

    /** An audience over the limit: every row is removed and the campaign stopped. */
    method RefuseAudience() returns (r: Result)
      modifies this, recipients
      ensures r != Materialised && recipients.rows == map[] && stats == old(stats)
      ensures Losses() >= old(Losses()) && (r == Crashed <==> Losses() > old(Losses()))
      ensures status == (if r == TooLarge && old(status) == Sending then Paused else old(status))
    {
      recipients.DeleteMany();
      var gone := IsLost();
      if gone {
        return Crashed;
      }
      Abort();
      return TooLarge;
    }

    /** The last, partly filled batch. */
    method WriteLast(s: Snapshot, cs: seq<Contact>, batch: seq<Contact>, seen: SeenDestinations,
                     ghost written: nat, ghost before: Ledger) returns (ok: bool)
      requires DistinctContacts(cs) && written <= |cs| && batch == cs[written..|cs|]
      requires seen.members == SeenAfter(s, cs, written)
      requires recipients.rows == LedgerAfter(s, cs, written, before)
      modifies this`writes, recipients, seen
      ensures Losses() >= old(Losses()) && (ok <==> Losses() == old(Losses()))
      ensures writes == old(writes) + if batch == [] then 0 else 1
      ensures ok ==> recipients.rows == LedgerAfter(s, cs, |cs|, before)
      ensures LeftBehind(s, cs, before, recipients.rows)
    {
      AllWritten(s, cs, before);
      ok := true;
      if |batch| > 0 {
        ok := WriteRecipients(s, batch, seen, cs, written, |cs|, before);
      }
    }

    method RecordCounts(ghost rows: Ledger) returns (ok: bool)
      requires recipients.rows == rows
      modifies this`writes, this`stats
      ensures Losses() >= old(Losses()) && (ok <==> Losses() == old(Losses())) && writes == old(writes) + 1
      ensures if ok then Counts(stats, old(stats), rows) else stats == old(stats)
    {
      var gone := IsLost();
      ok := !gone;
      if ok {
        WriteCounts();
      }
    }

    /** What follows the loop: the last batch, and the counts. */
    method WriteRest(s: Snapshot, cs: seq<Contact>, batch: seq<Contact>, seen: SeenDestinations,
                     ghost written: nat, ghost before: Ledger) returns (r: Result)
      requires DistinctContacts(cs) && written <= |cs| && batch == cs[written..|cs|]
      requires seen.members == SeenAfter(s, cs, written)
      requires recipients.rows == LedgerAfter(s, cs, written, before)
      modifies this`writes, this`stats, recipients, seen
      ensures r != TooLarge && Losses() >= old(Losses()) && (r == Crashed <==> Losses() > old(Losses()))
      ensures r == Materialised ==>
                recipients.rows == LedgerAfter(s, cs, |cs|, before) && Counts(stats, old(stats), recipients.rows)
                && writes == old(writes) + (if batch == [] then 1 else 2)
      ensures r == Crashed ==> stats == old(stats) && LeftBehind(s, cs, before, recipients.rows)
    {
      var ok := WriteLast(s, cs, batch, seen, written, before);
      if !ok {
        return Crashed;
      }
      ghost var rows := recipients.rows;
      ok := RecordCounts(rows);
      r := if ok then Materialised else Crashed;
    }

    /** The loop over the cursor: every full batch written, and what is left of the last one. */
    method Scan(s: Snapshot, cs: seq<Contact>, seen: SeenDestinations)
      returns (ended: Option<Result>, batch: seq<Contact>, ghost written: nat)
      requires DistinctContacts(cs) && seen.members == {}
      modifies this, recipients, seen
      ensures Losses() >= old(Losses()) && (ended == Some(Crashed) <==> Losses() > old(Losses()))
      ensures ended != Some(Materialised)
      ensures ended.None? ==>
                && |cs| <= 500_000 && written <= |cs| && batch == cs[written..|cs|]
                && |batch| < CAMPAIGN_MATERIALISE_BATCH_SIZE && written == 500 * (writes - old(writes))
                && seen.members == SeenAfter(s, cs, written)
                && recipients.rows == LedgerAfter(s, cs, written, old(recipients.rows))
                && status == old(status) && stats == old(stats)
      ensures ended == Some(TooLarge) ==>
                && |cs| > 500_000 && recipients.rows == map[] && stats == old(stats)
                && status == (if old(status) == Sending then Paused else old(status))
      ensures ended == Some(Crashed) ==>
                && status == old(status) && stats == old(stats)
                && (LeftBehind(s, cs, old(recipients.rows), recipients.rows)
                    || (|cs| > 500_000 && recipients.rows == map[]))
    {
      var scanned := 0;
      batch, written := [], 0;
      AllWritten(s, cs, recipients.rows);
      while scanned < |cs|
        invariant written <= scanned <= |cs| && scanned <= CAMPAIGN_MAX_AUDIENCE
        invariant batch == cs[written..scanned] && |batch| < CAMPAIGN_MATERIALISE_BATCH_SIZE
        invariant seen.members == SeenAfter(s, cs, written)
        invariant recipients.rows == LedgerAfter(s, cs, written, old(recipients.rows))
        invariant status == old(status) && stats == old(stats)
        invariant Losses() == old(Losses()) && written == 500 * (writes - old(writes))
      {
        BatchGrows(cs, written, scanned);
        batch := batch + [cs[scanned]];
        scanned := scanned + 1;
        if scanned > CAMPAIGN_MAX_AUDIENCE {
          var refused := RefuseAudience();
          return Some(refused), batch, written;
        }
        var ok;
        ok, batch, written := WriteIfFull(s, batch, seen, cs, written, scanned, old(recipients.rows));
        if !ok {
          return Some(Crashed), batch, written;
        }
      }
      ended := None;
    }

    /** `cs` is what the cursor yields; the contacts of one query have distinct ids. */
    method Materialise(s: Snapshot, cs: seq<Contact>) returns (r: Result)
      requires DistinctContacts(cs)
      modifies this, recipients
      ensures Losses() >= old(Losses()) && (r == Crashed <==> Losses() > old(Losses()))
      ensures r == Materialised ==>
                && |cs| <= 500_000 && recipients.rows == LedgerAfter(s, cs, |cs|, old(recipients.rows))
                && Counts(stats, old(stats), recipients.rows) && status == old(status)
                && writes - old(writes) == WritesFor(|cs|)
      ensures r == TooLarge ==>
                && |cs| > 500_000 && recipients.rows == map[] && stats == old(stats)
                && status == (if old(status) == Sending then Paused else old(status))
      ensures r == Crashed ==>
                && status == old(status) && stats == old(stats)
                && (LeftBehind(s, cs, old(recipients.rows), recipients.rows)
                    || (|cs| > 500_000 && recipients.rows == map[]))
    {
      var seen := new SeenDestinations();
      var ended, batch, written := Scan(s, cs, seen);
      if ended.Some? {
        return ended.value;
      }
      BatchesAddUp(|cs|, writes - old(writes));
      r := WriteRest(s, cs, batch, seen, written, old(recipients.rows));
    }
  }

  /** A write for each 500 contacts or part of that, and one for the counts. */
  function WritesFor(contacts: nat): nat {
    (contacts + 499) / 500 + 1
  }

  lemma BatchesAddUp(contacts: nat, full: nat)
    requires 500 * full <= contacts < 500 * full + 500
    ensures WritesFor(contacts) == full + if contacts == 500 * full then 1 else 2
  {
  }

  /** The ledger, and the addresses used, once the first `n` contacts are decided and written. */
  ghost function LedgerAfter(s: Snapshot, cs: seq<Contact>, n: nat, before: Ledger): Ledger
    requires n <= |cs|
  {
    UpsertAll(before, Decide(s, cs[..n], {}).decisions)
  }

  ghost function SeenAfter(s: Snapshot, cs: seq<Contact>, n: nat): set<string>
    requires n <= |cs|
  {
    Decide(s, cs[..n], {}).seen
  }

  ghost predicate LeftBehind(s: Snapshot, cs: seq<Contact>, before: Ledger, rows: Ledger) {
    PartOf(before, rows, Decide(s, cs, {}).decisions)
  }

  // ---------------------------------------------------------------- upserts

  function IdsOf(ds: seq<RecipientDecision>): set<ContactId> {
    set i | 0 <= i < |ds| :: ds[i].contactId
  }

  lemma {:induction false} UpsertGrows(ledger: Ledger, ds: seq<RecipientDecision>)
    ensures Submap(ledger, UpsertAll(ledger, ds))
  {
    if ds != [] {
      UpsertGrows(ledger, ds[..|ds| - 1]);
    }
  }

  lemma UpsertPrefix(ledger: Ledger, ds: seq<RecipientDecision>, i: nat)
    requires i < |ds|
    ensures UpsertAll(ledger, ds[..i + 1]) == UpsertOne(UpsertAll(ledger, ds[..i]), ds[i])
  {
    assert ds[..i + 1][..i] == ds[..i];
  }

  lemma {:induction false} UpsertKeys(ledger: Ledger, ds: seq<RecipientDecision>, c: ContactId)
    ensures c in UpsertAll(ledger, ds) <==> c in ledger || c in IdsOf(ds)
  {
    if ds != [] {
      var n := |ds| - 1;
      UpsertKeys(ledger, ds[..n], c);
      if i :| 0 <= i < n && ds[i].contactId == c {
        assert ds[..n][i].contactId == c;
      }
      if i :| 0 <= i < n && ds[..n][i].contactId == c {
        assert ds[i].contactId == c;
      }
      assert ds[n].contactId in IdsOf(ds);
    }
  }

  lemma FreshInPrefix(before: Ledger, rows: Ledger, ds: seq<RecipientDecision>, i: nat)
    requires i < |ds| && DistinctIds(ds) && PartOf(before, rows, ds[..i])
    ensures PartOf(before, UpsertOne(rows, ds[i]), ds[..i + 1])
  {
    UpsertPrefix(before, ds, i);
    UpsertKeys(before, ds[..i], ds[i].contactId);
    UpsertGrows(before, ds[..i]);
  }

  lemma {:induction false} UpsertSplit(ledger: Ledger, a: seq<RecipientDecision>, b: seq<RecipientDecision>)
    ensures UpsertAll(ledger, a + b) == UpsertAll(UpsertAll(ledger, a), b)
  {
    if b == [] {
      assert a + b == a;
    } else {
      var n := |b| - 1;
      UpsertSplit(ledger, a, b[..n]);
      assert (a + b)[..|a + b| - 1] == a + b[..n];
    }
  }

  lemma {:induction false} DecisionsAreDistinct(s: Snapshot, cs: seq<Contact>, seen: set<string>)
    requires DistinctContacts(cs)
    ensures DistinctIds(Decide(s, cs, seen).decisions)
  {
    forall i, j | 0 <= i < j < |cs|
      ensures Decide(s, cs, seen).decisions[i].contactId != Decide(s, cs, seen).decisions[j].contactId
    {
      DecisionsAreLegal(s, cs, seen, i);
      DecisionsAreLegal(s, cs, seen, j);
    }
  }

  // ---------------------------------------------------------------- the loop

  lemma BatchGrows(cs: seq<Contact>, written: nat, scanned: nat)
    requires written <= scanned < |cs|
    ensures cs[written..scanned] + [cs[scanned]] == cs[written..scanned + 1]
  {
  }

  /** Deciding the next batch with the threaded set is deciding all of it in one pass. */
  lemma OnePassSoFar(s: Snapshot, cs: seq<Contact>, before: Ledger, written: nat, upto: nat)
    requires written <= upto <= |cs|
    ensures var next := Decide(s, cs[written..upto], SeenAfter(s, cs, written));
            && next.seen == SeenAfter(s, cs, upto)
            && UpsertAll(LedgerAfter(s, cs, written, before), next.decisions) == LedgerAfter(s, cs, upto, before)
  {
    assert cs[..upto] == cs[..written] + cs[written..upto];
    BatchesCompose(s, cs[..written], cs[written..upto], {});
    UpsertSplit(before, Decide(s, cs[..written], {}).decisions,
                Decide(s, cs[written..upto], SeenAfter(s, cs, written)).decisions);
  }

  lemma AllWritten(s: Snapshot, cs: seq<Contact>, before: Ledger)
    ensures LedgerAfter(s, cs, |cs|, before) == UpsertAll(before, Decide(s, cs, {}).decisions)
    ensures LeftBehind(s, cs, before, LedgerAfter(s, cs, |cs|, before))
    ensures LedgerAfter(s, cs, 0, before) == before && SeenAfter(s, cs, 0) == {}
  {
    assert cs[..|cs|] == cs;
    UpsertGrows(before, Decide(s, cs, {}).decisions);
  }

  /** A batch write, whole or partial, keeps the ledger between its start and the one-pass ledger. */
  lemma NextBatch(s: Snapshot, cs: seq<Contact>, before: Ledger, rows: Ledger, written: nat, upto: nat)
    requires written <= upto <= |cs|
    requires PartOf(LedgerAfter(s, cs, written, before), rows,
                    Decide(s, cs[written..upto], SeenAfter(s, cs, written)).decisions)
    ensures var next := Decide(s, cs[written..upto], SeenAfter(s, cs, written));
            && next.seen == SeenAfter(s, cs, upto)
            && UpsertAll(LedgerAfter(s, cs, written, before), next.decisions) == LedgerAfter(s, cs, upto, before)
    ensures LeftBehind(s, cs, before, rows)
  {
    OnePassSoFar(s, cs, before, written, upto);
    OnePassSoFar(s, cs, before, upto, |cs|);
    AllWritten(s, cs, before);
    UpsertGrows(before, Decide(s, cs[..written], {}).decisions);
    UpsertGrows(LedgerAfter(s, cs, upto, before), Decide(s, cs[upto..|cs|], SeenAfter(s, cs, upto)).decisions);
  }

  // ---------------------------------------------------------------- convergence

  /** The ledger of a single uninterrupted run over an empty one. */
  function OnePass(s: Snapshot, cs: seq<Contact>): Ledger {
    UpsertAll(map[], Decide(s, cs, {}).decisions)
  }

  /** Starting from part of what a full run writes leads to what the full run writes. */
  lemma {:induction false} UpsertFromPart(part: Ledger, base: Ledger, ds: seq<RecipientDecision>)
    requires Submap(base, part) && Submap(part, UpsertAll(base, ds))
    ensures UpsertAll(part, ds) == UpsertAll(base, ds)
  {
    UpsertFromPartPrefix(part, base, ds, |ds|);
    assert ds[..|ds|] == ds;
    UpsertGrows(part, ds);
    var a, b := UpsertAll(part, ds), UpsertAll(base, ds);
    forall c ensures c in a <==> c in b {
      UpsertKeys(part, ds, c);
      UpsertKeys(base, ds, c);
    }
    assert Submap(a, b);
  }

  lemma {:induction false} UpsertFromPartPrefix(part: Ledger, base: Ledger, ds: seq<RecipientDecision>, i: nat)
    requires i <= |ds| && Submap(base, part) && Submap(part, UpsertAll(base, ds))
    ensures Submap(UpsertAll(part, ds[..i]), UpsertAll(base, ds))
  {
    if i > 0 {
      UpsertFromPartPrefix(part, base, ds, i - 1);
      UpsertPrefix(part, ds, i - 1);
      UpsertPrefix(base, ds, i - 1);
      FirstWins(base, ds, i - 1);
      UpsertKeys(part, ds[..i - 1], ds[i - 1].contactId);
      UpsertKeys(base, ds[..i - 1], ds[i - 1].contactId);
    }
  }

  lemma {:induction false} FirstWins(base: Ledger, ds: seq<RecipientDecision>, i: nat)
    requires i < |ds|
    ensures Submap(UpsertAll(base, ds[..i + 1]), UpsertAll(base, ds))
  {
    assert ds == ds[..i + 1] + ds[i + 1..];
    UpsertSplit(base, ds[..i + 1], ds[i + 1..]);
    UpsertGrows(UpsertAll(base, ds[..i + 1]), ds[i + 1..]);
  }

  /** However many runs stop half-way, each leaves part of the one-pass ledger, and the
      first that completes leaves exactly that ledger. */
  lemma {:induction false} MaterialisationConverges(s: Snapshot, cs: seq<Contact>, left: seq<Ledger>)
    requires left != [] && left[0] == map[]
    requires forall k :: 0 < k < |left| ==> PartOf(left[k - 1], left[k], Decide(s, cs, {}).decisions)
    ensures Submap(left[|left| - 1], OnePass(s, cs))
    ensures UpsertAll(left[|left| - 1], Decide(s, cs, {}).decisions) == OnePass(s, cs)
  {
    var n := |left| - 1;
    if n > 0 {
      MaterialisationConverges(s, cs, left[..n]);
    }
    UpsertFromPart(left[n], map[], Decide(s, cs, {}).decisions);
  }

  /** The one-pass ledger holds one row per contact, and it is the row of its verdict. */
  lemma OnePassIsTheVerdicts(s: Snapshot, cs: seq<Contact>, i: nat)
    requires DistinctContacts(cs) && i < |cs|
    ensures cs[i].id in OnePass(s, cs) && OnePass(s, cs)[cs[i].id] == FreshRow(Verdict(s, cs, i))
  {
    var ds := Decide(s, cs, {}).decisions;
    DecisionsAreDistinct(s, cs, {});
    DecisionsAreLegal(s, cs, {}, i);
    PassIsVerdict(s, cs, i);
    UpsertPrefix(map[], ds, i);
    UpsertKeys(map[], ds[..i], cs[i].id);
    FirstWins(map[], ds, i);
  }

  lemma OnePassHasNoOthers(s: Snapshot, cs: seq<Contact>, c: ContactId)
    requires c in OnePass(s, cs)
    ensures exists i :: 0 <= i < |cs| && cs[i].id == c
  {
    var ds := Decide(s, cs, {}).decisions;
    UpsertKeys(map[], ds, c);
    var i :| 0 <= i < |ds| && ds[i].contactId == c;
    DecisionsAreLegal(s, cs, {}, i);
  }

  ghost predicate SendableAt(s: Snapshot, cs: seq<Contact>, i: nat) {
    i < |cs| && Verdict(s, cs, i).skipReason.None?
  }

  /** What the campaign is recorded to have queued: the contacts whose verdict names no reason to skip. */
  lemma QueuedAreTheSendable(s: Snapshot, cs: seq<Contact>, c: ContactId)
    requires DistinctContacts(cs)
    ensures c in PendingOf(OnePass(s, cs)) <==> exists i: nat :: SendableAt(s, cs, i) && cs[i].id == c
  {
    if c in PendingOf(OnePass(s, cs)) {
      OnePassHasNoOthers(s, cs, c);
      var i :| 0 <= i < |cs| && cs[i].id == c;
      OnePassIsTheVerdicts(s, cs, i);
      assert SendableAt(s, cs, i);
    }
    if i: nat :| SendableAt(s, cs, i) && cs[i].id == c {
      OnePassIsTheVerdicts(s, cs, i);
    }
  }

  // ---------------------------------------------------------------- the ledger of the protocol

  /** The protocol's rows by row id are this ledger by contact. */
  ghost predicate Represents(rows: map<RowId, Row>, ledger: Ledger) {
    && (forall r :: r in rows ==> rows[r].contact in ledger && ledger[rows[r].contact] == rows[r])
    && (forall c :: c in ledger ==> HasContact(rows, c))
    && (forall q, r :: q in rows && r in rows && rows[q].contact == rows[r].contact ==> q == r)
  }

  /** One upsert of the loop is one `Upsert` step of the protocol. */
  lemma UpsertIsAProtocolStep(s: State, d: nat, decision: RecipientDecision, ledger: Ledger)
    requires Represents(s.rows, ledger) && s.nextId !in s.rows
    requires CanDispatch(s, d, Upsert(decision))
    ensures Represents(DispatchStep(s, d, Upsert(decision)).rows, UpsertOne(ledger, decision))
  {
    var rows, after := s.rows, UpsertOne(ledger, decision);
    var t := DispatchStep(s, d, Upsert(decision)).rows;
    if !HasContact(rows, decision.contactId) {
      assert t == rows[s.nextId := FreshRow(decision)];
      forall c | c in after ensures HasContact(t, c) {
        if c in ledger {
          var r :| r in rows && rows[r].contact == c;
          assert t[r].contact == c;
        } else {
          assert t[s.nextId].contact == c;
        }
      }
    }
  }
}
