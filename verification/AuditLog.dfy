/** Newest-first reading of an entity's audit trail, page by page, from a composite cursor. */
module AuditLog {
  import opened Options

  type Millis = int
  type ObjectId = nat

  /** `body` stands for the fields paging never looks at. */
  datatype Entry = Entry(id: ObjectId, t: Millis, tenantId: string, entityType: string, entityId: string, body: string)

  datatype Position = Position(t: Millis, id: ObjectId)

  /** The query document: one entity's entries, those past `after` when it is set. */
  datatype Where = Where(tenantId: string, entityType: string, entityId: string, after: Option<Position>)

  datatype PageResult = PageResult(data: seq<Entry>, nextCursor: Option<string>, hasMore: bool)

  /** Cursor text: a base64 encoding with its decoder, which rejects text it cannot read. */
  datatype Codec = Codec(encode: Position -> string, decode: string -> Option<Position>)

  ghost predicate Faithful(codec: Codec) {
    forall p: Position :: codec.encode(p) != "" && codec.decode(codec.encode(p)) == Some(p)
  }

  // ---------------------------------------------------------------- the stored log

  function At(e: Entry): Position {
    Position(e.t, e.id)
  }

  predicate Precedes(a: Position, b: Position) {
    a.t < b.t || (a.t == b.t && a.id < b.id)
  }

  predicate Matches(e: Entry, w: Where) {
    && (e.tenantId == w.tenantId && e.entityType == w.entityType && e.entityId == w.entityId)
    && (w.after.Some? ==> Precedes(At(e), w.after.value))
  }

  function Select(log: seq<Entry>, w: Where): (r: seq<Entry>)
    ensures forall e :: e in r <==> e in log && Matches(e, w)
    ensures |r| <= |log|
  {
    if log == [] then []
    else if Matches(log[0], w) then [log[0]] + Select(log[1..], w)
    else Select(log[1..], w)
  }

  function Insert(e: Entry, s: seq<Entry>): (r: seq<Entry>)
    ensures forall x :: x in r <==> x == e || x in s
  {
    if s == [] || Precedes(At(s[0]), At(e)) then [e] + s else [s[0]] + Insert(e, s[1..])
  }

  function NewestFirst(s: seq<Entry>): (r: seq<Entry>)
    ensures forall x :: x in r <==> x in s
  {
    if s == [] then [] else Insert(s[0], NewestFirst(s[1..]))
  }

  function Take(s: seq<Entry>, n: nat): seq<Entry> {
    if |s| <= n then s else s[..n]
  }

  /** find(where).sort({ t: -1, _id: -1 }).limit(n) */
  function Find(log: seq<Entry>, w: Where, n: nat): seq<Entry> {
    Take(NewestFirst(Select(log, w)), n)
  }

  // ---------------------------------------------------------------- the service

  /** Where a request starts: an absent, empty or unreadable cursor means the beginning. */
  function Start(codec: Codec, cursor: Option<string>): Option<Position> {
    if cursor.None? || cursor.value == "" then None else codec.decode(cursor.value)
  }

  function Answer(found: seq<Entry>, limit: nat, codec: Codec): PageResult {
    var data := Take(found, limit);
    var hasMore := |found| > limit;
    PageResult(data, if hasMore && data != [] then Some(codec.encode(At(data[|data| - 1]))) else None, hasMore)
  }

  function Page(log: seq<Entry>, w: Where, codec: Codec, limit: nat, cursor: Option<string>): PageResult {
    Answer(NewestFirst(Select(log, w.(after := Start(codec, cursor)))), limit, codec)
  }

  class Filter {
    const tenantId: string
    const entityType: string
    const entityId: string
    var after: Option<Position>

    constructor (tenantId: string, entityType: string, entityId: string)
      ensures Value() == Where(tenantId, entityType, entityId, None)
    {
      this.tenantId, this.entityType, this.entityId, after := tenantId, entityType, entityId, None;
    }

    function Value(): Where
      reads this
    {
      Where(tenantId, entityType, entityId, after)
    }
  }

  class AuditLogService {
    const codec: Codec

    constructor (codec: Codec)
      ensures this.codec == codec
    {
      this.codec := codec;
    }

    method ApplyCursorFilter(filter: Filter, cursor: Option<string>)
      requires filter.after.None?
      modifies filter
      ensures filter.Value() == old(filter.Value()).(after := Start(codec, cursor))
    {
      if cursor.None? || cursor.value == "" {
        return;
      }
      match codec.decode(cursor.value)
      case Some(p) => filter.after := Some(p);
      case None =>
    }

    method BuildNextCursor(hasMore: bool, page: seq<Entry>) returns (next: Option<string>)
      ensures next == if hasMore && page != [] then Some(codec.encode(At(page[|page| - 1]))) else None
    {
      if !hasMore || page == [] {
        return None;
      }
      next := Some(codec.encode(At(page[|page| - 1])));
    }

    method GetAuditLogs(log: seq<Entry>, tenantId: string, entityType: string, entityId: string,
                        limit: nat, cursor: Option<string>) returns (r: PageResult)
      ensures r == Page(log, Where(tenantId, entityType, entityId, None), codec, limit, cursor)
      ensures UniqueIds(log) ==>
                Shows(r, log, Where(tenantId, entityType, entityId, Start(codec, cursor)), limit)
    {
      var filter := new Filter(tenantId, entityType, entityId);
      ApplyCursorFilter(filter, cursor);
      var docs := Find(log, filter.Value(), limit + 1);
      var hasMore := |docs| > limit;
      var page := if hasMore then docs[..limit] else docs;
      var nextCursor := BuildNextCursor(hasMore, page);
      r := PageResult(page, nextCursor, hasMore);
      if UniqueIds(log) {
        PageShowsTheNewest(log, Where(tenantId, entityType, entityId, None), codec, limit, cursor);
      }
    }
  }

  // ---------------------------------------------------------------- order

  ghost predicate UniqueIds(log: seq<Entry>) {
    forall i, j :: 0 <= i < j < |log| ==> log[i].id != log[j].id
  }

  /** Strictly newest first. */
  ghost predicate Descending(s: seq<Entry>) {
    forall i, j :: 0 <= i < j < |s| ==> Precedes(At(s[j]), At(s[i]))
  }

  lemma {:induction false} InsertKeepsDescending(e: Entry, s: seq<Entry>)
    requires Descending(s) && forall x :: x in s ==> x.id != e.id
    ensures Descending(Insert(e, s))
  {
    if s != [] && !Precedes(At(s[0]), At(e)) {
      InsertKeepsDescending(e, s[1..]);
      forall x | x in Insert(e, s[1..]) ensures Precedes(At(x), At(s[0])) {
        if x != e {
          assert x in s[1..];
        }
      }
    }
  }

  lemma {:induction false} NewestFirstDescends(s: seq<Entry>)
    requires UniqueIds(s)
    ensures Descending(NewestFirst(s))
  {
    if s != [] {
      NewestFirstDescends(s[1..]);
      InsertKeepsDescending(s[0], NewestFirst(s[1..]));
    }
  }

  lemma {:induction false} SelectKeepsUnique(log: seq<Entry>, w: Where)
    requires UniqueIds(log)
    ensures UniqueIds(Select(log, w))
  {
    if log != [] {
      SelectKeepsUnique(log[1..], w);
      forall x | x in Select(log[1..], w) ensures x.id != log[0].id {
        assert x in log[1..];
      }
    }
  }

  /** A set of entries has only one newest-first order. */
  lemma {:induction false} OneOrder(a: seq<Entry>, b: seq<Entry>)
    requires Descending(a) && Descending(b)
    requires forall e :: e in a <==> e in b
    ensures a == b
  {
    assert a != [] ==> a[0] in b;
    assert b != [] ==> b[0] in a;
    if a != [] {
      assert a[0] == b[0];
      forall e ensures e in a[1..] <==> e in b[1..] {
        if e in a[1..] {
          assert e in b && e != a[0];
        }
        if e in b[1..] {
          assert e in a && e != b[0];
        }
      }
      OneOrder(a[1..], b[1..]);
    }
  }

  // ---------------------------------------------------------------- paging

  /** The matching entries, newest first, that a request starting at `w.after` has before it. */
  function Remaining(log: seq<Entry>, w: Where): seq<Entry> {
    NewestFirst(Select(log, w))
  }

  lemma RemainingDescends(log: seq<Entry>, w: Where)
    requires UniqueIds(log)
    ensures Descending(Remaining(log, w))
  {
    SelectKeepsUnique(log, w);
    NewestFirstDescends(Select(log, w));
  }

  /** Past the position the reader has reached, the two logs hold the same entries. */
  ghost predicate SameBeyond(log: seq<Entry>, later: seq<Entry>, w: Where) {
    forall e :: Matches(e, w) ==> (e in log <==> e in later)
  }

  /** In a newest-first sequence, what lies past the k-th entry is what comes after it. */
  lemma PastIsAfter(all: seq<Entry>, k: nat, e: Entry)
    requires Descending(all) && k < |all|
    ensures e in all[k + 1..] <==> e in all && Precedes(At(e), At(all[k]))
  {
    if e in all {
      var i :| 0 <= i < |all| && all[i] == e;
      if k < i {
        assert all[k + 1..][i - k - 1] == e;
      }
    }
  }

  lemma MatchesFurther(e: Entry, reached: Entry, w: Where)
    requires Matches(reached, w)
    ensures Matches(e, w.(after := Some(At(reached)))) <==> Matches(e, w) && Precedes(At(e), At(reached))
  {
  }

  /** Starting again after the k-th entry continues exactly there, in a log that has
      changed only on the side already read. */
  lemma Resume(log: seq<Entry>, later: seq<Entry>, w: Where, k: nat)
    requires UniqueIds(log) && UniqueIds(later) && k < |Remaining(log, w)|
    requires SameBeyond(log, later, w.(after := Some(At(Remaining(log, w)[k]))))
    ensures Remaining(later, w.(after := Some(At(Remaining(log, w)[k])))) == Remaining(log, w)[k + 1..]
  {
    var all := Remaining(log, w);
    var next := w.(after := Some(At(all[k])));
    RemainingDescends(log, w);
    RemainingDescends(later, next);
    assert all[k] in all;
    forall e ensures e in Remaining(later, next) <==> e in all[k + 1..] {
      PastIsAfter(all, k, e);
      MatchesFurther(e, all[k], w);
    }
    OneOrder(Remaining(later, next), all[k + 1..]);
  }

  /** What a reader collects by following `nextCursor`, reading page i of the log as it
      stood at its i-th request; `done` when the last page named no next one. */
  datatype Reading = Reading(rows: seq<Entry>, done: bool, pages: seq<nat>)

  function Follow(snaps: seq<seq<Entry>>, w: Where, codec: Codec, limit: nat, cursor: Option<string>): Reading {
    if snaps == [] then Reading([], false, [])
    else
      var page := Page(snaps[0], w, codec, limit, cursor);
      if page.nextCursor.None? then Reading(page.data, true, [|page.data|])
      else
        var rest := Follow(snaps[1..], w, codec, limit, page.nextCursor);
        Reading(page.data + rest.rows, rest.done, [|page.data|] + rest.pages)
  }

  /** Between two requests the log changes only on the side already read: entries newer
      than the cursor, or of other entities, may come and go. */
  ghost predicate ChangesBehind(snaps: seq<seq<Entry>>, w: Where, codec: Codec, limit: nat, cursor: Option<string>) {
    |snaps| <= 1 ||
    (var next := Page(snaps[0], w, codec, limit, cursor).nextCursor;
     next.None? ||
     (SameBeyond(snaps[0], snaps[1], w.(after := Start(codec, next))) &&
      ChangesBehind(snaps[1..], w, codec, limit, next)))
  }

  /** What a reader got in `requests` requests of `limit` rows, with `all` before it. */
  ghost predicate ReadsOn(got: Reading, all: seq<Entry>, requests: nat, limit: nat) {
    && got.rows <= all && (got.done ==> got.rows == all)
    && (!got.done ==> |got.rows| >= requests && |got.rows| < |all|)
    && (forall i :: 0 <= i < |got.pages| - 1 ==> got.pages[i] == limit)
  }

  lemma AnotherPage(rest: Reading, all: seq<Entry>, requests: nat, limit: nat)
    requires 1 <= limit < |all| && ReadsOn(rest, all[limit..], requests, limit)
    ensures ReadsOn(Reading(all[..limit] + rest.rows, rest.done, [limit] + rest.pages), all, requests + 1, limit)
  {
    assert all == all[..limit] + all[limit..];
  }

  /** A page that names a next one is full, and the next one starts where it ended. */
  lemma NextPage(log: seq<Entry>, later: seq<Entry>, w: Where, codec: Codec, limit: nat, cursor: Option<string>)
    requires Faithful(codec) && limit >= 1 && UniqueIds(log) && UniqueIds(later)
    requires Page(log, w, codec, limit, cursor).nextCursor.Some?
    requires SameBeyond(log, later, w.(after := Start(codec, Page(log, w, codec, limit, cursor).nextCursor)))
    ensures var all, page := Remaining(log, w.(after := Start(codec, cursor))), Page(log, w, codec, limit, cursor);
            && limit < |all| && page.data == all[..limit]
            && Remaining(later, w.(after := Start(codec, page.nextCursor))) == all[limit..]
  {
    var here := w.(after := Start(codec, cursor));
    var all := Remaining(log, here);
    var next := Page(log, w, codec, limit, cursor).nextCursor;
    assert Start(codec, next) == Some(At(all[limit - 1]));
    assert w.(after := Start(codec, next)) == here.(after := Some(At(all[limit - 1])));
    Resume(log, later, here, limit - 1);
  }

  lemma OneRequest(log: seq<Entry>, w: Where, codec: Codec, limit: nat, cursor: Option<string>)
    requires limit >= 1
    ensures ReadsOn(Follow([log], w, codec, limit, cursor), Remaining(log, w.(after := Start(codec, cursor))), 1, limit)
  {
  }

  lemma LastPage(log: seq<Entry>, w: Where, codec: Codec, limit: nat, cursor: Option<string>, requests: nat)
    requires limit >= 1 && Page(log, w, codec, limit, cursor).nextCursor.None?
    ensures var page := Page(log, w, codec, limit, cursor);
            ReadsOn(Reading(page.data, true, [|page.data|]), Remaining(log, w.(after := Start(codec, cursor))),
                    requests, limit)
  {
  }

  lemma {:induction false} FollowReadsTheRest(snaps: seq<seq<Entry>>, w: Where, codec: Codec, limit: nat,
                                              cursor: Option<string>)
    requires Faithful(codec) && limit >= 1
    requires snaps != [] && forall i :: 0 <= i < |snaps| ==> UniqueIds(snaps[i])
    requires ChangesBehind(snaps, w, codec, limit, cursor)
    ensures ReadsOn(Follow(snaps, w, codec, limit, cursor), Remaining(snaps[0], w.(after := Start(codec, cursor))),
                    |snaps|, limit)
  {
    var next := Page(snaps[0], w, codec, limit, cursor).nextCursor;
    if |snaps| == 1 {
      assert snaps == [snaps[0]];
      OneRequest(snaps[0], w, codec, limit, cursor);
    } else if next.None? {
      LastPage(snaps[0], w, codec, limit, cursor, |snaps|);
    } else {
      NextPage(snaps[0], snaps[1], w, codec, limit, cursor);
      FollowReadsTheRest(snaps[1..], w, codec, limit, next);
      AnotherPage(Follow(snaps[1..], w, codec, limit, next), Remaining(snaps[0], w.(after := Start(codec, cursor))),
                  |snaps| - 1, limit);
    }
  }

  /** Reading from the start: no entry is skipped or repeated, whatever entries share a
      timestamp and whatever is written meanwhile on the side already read; it ends within
      one request per entry, and every page but the last is full. */
  lemma PagingIsExact(snaps: seq<seq<Entry>>, w: Where, codec: Codec, limit: nat)
    requires Faithful(codec) && limit >= 1 && w.after.None?
    requires snaps != [] && forall i :: 0 <= i < |snaps| ==> UniqueIds(snaps[i])
    requires ChangesBehind(snaps, w, codec, limit, None)
    ensures var all := Remaining(snaps[0], w);
            var got := Follow(snaps, w, codec, limit, None);
            && Descending(all) && (forall e :: e in all <==> e in snaps[0] && Matches(e, w))
            && got.rows <= all
            && (got.done <==> got.rows == all)
            && (|snaps| >= |all| ==> got.done)
            && (forall i :: 0 <= i < |got.pages| - 1 ==> got.pages[i] == limit)
  {
    assert w.(after := None) == w;
    RemainingDescends(snaps[0], w);
    FollowReadsTheRest(snaps, w, codec, limit, None);
  }

  /** A page names a next one exactly when entries remain beyond a page that is not empty, and
      its cursor reads back as the position of the page's last entry. */
  lemma NextCursorReadsBack(log: seq<Entry>, w: Where, codec: Codec, limit: nat, cursor: Option<string>)
    requires Faithful(codec)
    ensures var page := Page(log, w, codec, limit, cursor);
            && (page.nextCursor.Some? <==> 0 < limit < |Remaining(log, w.(after := Start(codec, cursor)))|)
            && (page.nextCursor.Some? ==>
                  page.data != [] && Start(codec, page.nextCursor) == Some(At(page.data[|page.data| - 1])))
  {
    var page := Page(log, w, codec, limit, cursor);
    if page.nextCursor.Some? {
      var last := At(page.data[|page.data| - 1]);
      assert codec.encode(last) != "" && codec.decode(codec.encode(last)) == Some(last);
    }
  }

  predicate Older(e: Entry, than: Entry) {
    e.t < than.t || (e.t == than.t && e.id < than.id)
  }

  /** Entry `e` is about the entity asked for, in the tenant asked for, and past the cursor. */
  predicate Wanted(e: Entry, w: Where) {
    && e.tenantId == w.tenantId && e.entityType == w.entityType && e.entityId == w.entityId
    && (w.after.Some? ==> e.t < w.after.value.t || (e.t == w.after.value.t && e.id < w.after.value.id))
  }

  /** A page holds wanted entries, each older than the one before it; what is wanted and not
      on it is older than all of it, in which case it is full and says that there is more. */
  ghost predicate Shows(page: PageResult, log: seq<Entry>, w: Where, limit: nat) {
    && |page.data| <= limit
    && (forall e :: e in page.data ==> e in log && Wanted(e, w))
    && (forall i, j :: 0 <= i < j < |page.data| ==> Older(page.data[j], page.data[i]))
    && (forall e :: e in log && Wanted(e, w) && e !in page.data ==> forall x :: x in page.data ==> Older(e, x))
    && (page.hasMore <==> exists e :: e in log && Wanted(e, w) && e !in page.data)
    && (page.hasMore ==> |page.data| == limit)
  }

  lemma OlderThanThePage(all: seq<Entry>, limit: nat, e: Entry)
    requires Descending(all) && e in all && e !in Take(all, limit)
    ensures |all| > limit && forall x :: x in Take(all, limit) ==> Older(e, x)
  {
    var i :| 0 <= i < |all| && all[i] == e;
    assert forall k :: 0 <= k < |Take(all, limit)| ==> Take(all, limit)[k] == all[k] && all[k] != e;
    forall x | x in Take(all, limit) ensures Older(e, x) {
      var j :| 0 <= j < |Take(all, limit)| && Take(all, limit)[j] == x;
      assert all[j] == x;
    }
  }

  lemma MoreIsLeftOut(all: seq<Entry>, limit: nat)
    requires Descending(all) && |all| > limit
    ensures all[limit] !in Take(all, limit)
  {
    forall x | x in Take(all, limit) ensures x != all[limit] {
      var j :| 0 <= j < limit && Take(all, limit)[j] == x;
      assert Precedes(At(all[limit]), At(all[j]));
    }
  }

  /** What one request answers, in the entries' own fields. */
  lemma PageShowsTheNewest(log: seq<Entry>, w: Where, codec: Codec, limit: nat, cursor: Option<string>)
    requires UniqueIds(log)
    ensures Shows(Page(log, w, codec, limit, cursor), log, w.(after := Start(codec, cursor)), limit)
  {
    var here := w.(after := Start(codec, cursor));
    var all := Remaining(log, here);
    var page := Page(log, w, codec, limit, cursor);
    RemainingDescends(log, here);
    assert forall e :: e in all <==> e in log && Wanted(e, here);
    forall e | e in log && Wanted(e, here) && e !in page.data ensures forall x :: x in page.data ==> Older(e, x) {
      OlderThanThePage(all, limit, e);
    }
    if page.hasMore {
      MoreIsLeftOut(all, limit);
      assert all[limit] in all;
    } else if e :| e in log && Wanted(e, here) && e !in page.data {
      OlderThanThePage(all, limit, e);
    }
  }

  /** A limit of 0 would say there is more and give no way to reach it. */
  lemma ZeroLimitStalls(log: seq<Entry>, w: Where, codec: Codec, cursor: Option<string>)
    ensures var page := Page(log, w, codec, 0, cursor);
            page.data == [] && page.nextCursor.None? &&
            (page.hasMore <==> exists e :: e in log && Matches(e, w.(after := Start(codec, cursor))))
  {
    var here := w.(after := Start(codec, cursor));
    var all := Remaining(log, here);
    if all != [] {
      assert all[0] in log && Matches(all[0], here);
    }
  }
}
