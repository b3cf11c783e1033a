/** Paging through the guild audit log: requests of at most 100 entries, each
    one continuing before the oldest entry received so far, until a page comes
    back empty or the caller's limit is reached. */
module AuditPaging {
  import opened Wrappers
  import opened Text
  import opened AuditTypes

  /** One call of the audit-log endpoint. */
  datatype Request = Request(limit: int, before: Option<Snowflake>, userId: Option<Snowflake>,
                             actionType: Option<ActionType>)

  /** The requests made and the non-empty pages kept. */
  datatype Fetch = Fetch(requests: seq<Request>, kept: seq<AuditLogPage>)

  const EmptyPage := AuditLogPage([], [], [])

  /** The response to the `k`-th request: the platform's pages in order, then
      empty pages once they are exhausted. */
  function Served(pages: seq<AuditLogPage>, k: nat): (p: AuditLogPage)
    ensures k >= |pages| ==> p.entries == []
  {
    if k < |pages| then pages[k] else EmptyPage
  }

  function Min(a: int, b: int): int {
    if a <= b then a else b
  }

  /** How many entries the next request asks for, before capping at 100. */
  function Remaining(limit: Option<int>, fetched: int): int {
    if limit.Some? then limit.value - fetched else 100
  }

  function LastId(p: AuditLogPage): Snowflake
    requires p.entries != []
  {
    p.entries[|p.entries| - 1].id
  }

  /** The number of entries in a sequence of pages. */
  function Total(ps: seq<AuditLogPage>): nat {
    if ps == [] then 0 else |ps[0].entries| + Total(ps[1..])
  }

  /** The paging loop from the `k`-th request on, after `tc` entries, with
      cursor `last`. */
  function FetchFrom(pages: seq<AuditLogPage>, limit: Option<int>, byMember: Option<Snowflake>,
                     action: Option<ActionType>, k: nat, tc: int, last: Snowflake): Fetch
    decreases |pages| - k
  {
    var rmn := Min(100, Remaining(limit, tc));
    if rmn <= 0 then Fetch([], [])
    else
      var req := Request(rmn, Cursor(last), byMember, action);
      var page := Served(pages, k);
      if |page.entries| == 0 then Fetch([req], [])
      else
        var rest := FetchFrom(pages, limit, byMember, action, k + 1, tc + |page.entries|, LastId(page));
        Fetch([req] + rest.requests, [page] + rest.kept)
  }

  /** The whole paging loop of `GetAuditLogsAsync`. */
  function FetchAll(pages: seq<AuditLogPage>, limit: Option<int>, byMember: Option<Snowflake>,
                    action: Option<ActionType>): Fetch
  {
    FetchFrom(pages, limit, byMember, action, 0, 0, 0)
  }

  /** The paging loop as the source runs it. */
  method FetchPages(pages: seq<AuditLogPage>, limit: Option<int>, byMember: Option<Snowflake>,
                    action: Option<ActionType>)
    returns (requests: seq<Request>, kept: seq<AuditLogPage>)
    ensures Fetch(requests, kept) == FetchAll(pages, limit, byMember, action)
  {
    var ac, tc := 1, 0;
    var last: Snowflake := 0;
    var k: nat := 0;
    requests, kept := [], [];
    while ac > 0
      invariant 0 <= ac && k <= |pages|
      invariant FetchAll(pages, limit, byMember, action) ==
        if ac > 0 then Then(Fetch(requests, kept), FetchFrom(pages, limit, byMember, action, k, tc, last))
        else Fetch(requests, kept)
      decreases |pages| - k, ac
    {
      var rmn := Min(100, Remaining(limit, tc));
      FetchStep(pages, limit, byMember, action, k, tc, last);
      ghost var before := Fetch(requests, kept);
      if rmn <= 0 {
        ThenEmpty(before);
        break;
      }
      var page := Served(pages, k);
      var req := Request(rmn, Cursor(last), byMember, action);
      requests := requests + [req];
      ac := |page.entries|;
      tc := tc + ac;
      if ac > 0 {
        last := LastId(page);
        kept := kept + [page];
        k := k + 1;
        ThenStep(before, req, page, FetchFrom(pages, limit, byMember, action, k, tc, last));
      } else {
        ThenLast(before, req);
      }
    }
  }

  function Then(a: Fetch, b: Fetch): Fetch {
    Fetch(a.requests + b.requests, a.kept + b.kept)
  }

  lemma ThenEmpty(a: Fetch)
    ensures Then(a, Fetch([], [])) == a
  {
    assert a.requests + [] == a.requests && a.kept + [] == a.kept;
  }

  lemma ThenLast(a: Fetch, req: Request)
    ensures Then(a, Fetch([req], [])) == Fetch(a.requests + [req], a.kept)
  {
    assert a.kept + [] == a.kept;
  }

  lemma ThenStep(a: Fetch, req: Request, page: AuditLogPage, rest: Fetch)
    ensures Then(a, Fetch([req] + rest.requests, [page] + rest.kept))
         == Then(Fetch(a.requests + [req], a.kept + [page]), rest)
  {
    assert a.requests + ([req] + rest.requests) == (a.requests + [req]) + rest.requests;
    assert a.kept + ([page] + rest.kept) == (a.kept + [page]) + rest.kept;
  }

  /** One turn of the paging loop. */
  lemma FetchStep(pages: seq<AuditLogPage>, limit: Option<int>, byMember: Option<Snowflake>,
                  action: Option<ActionType>, k: nat, tc: int, last: Snowflake)
    ensures var rmn := Min(100, Remaining(limit, tc));
      var page := Served(pages, k);
      var f := FetchFrom(pages, limit, byMember, action, k, tc, last);
      && (rmn <= 0 ==> f == Fetch([], []))
      && (rmn > 0 && page.entries == [] ==> f == Fetch([Request(rmn, Cursor(last), byMember, action)], []))
      && (rmn > 0 && page.entries != [] ==>
            k < |pages|
            && var rest := FetchFrom(pages, limit, byMember, action, k + 1, tc + |page.entries|, LastId(page));
               f == Fetch([Request(rmn, Cursor(last), byMember, action)] + rest.requests, [page] + rest.kept))
  {
  }

  // ---------------------------------------------------------------------
  // What the paging loop does

  /** The kept pages are the platform's pages in order, none of them empty,
      and at most one request more than kept pages is made. */
  lemma {:induction false} FetchKeepsServedPages(pages: seq<AuditLogPage>, limit: Option<int>,
      byMember: Option<Snowflake>, action: Option<ActionType>, k: nat, tc: int, last: Snowflake)
    ensures var f := FetchFrom(pages, limit, byMember, action, k, tc, last);
      |f.kept| <= |f.requests| <= |f.kept| + 1
      && (f.kept != [] ==> k + |f.kept| <= |pages|)
      && forall i :: 0 <= i < |f.kept| ==>
           k + i < |pages| && f.kept[i] == pages[k + i] && f.kept[i].entries != []
    decreases |pages| - k
  {
    var rmn := Min(100, Remaining(limit, tc));
    var page := Served(pages, k);
    if rmn > 0 && |page.entries| != 0 {
      FetchKeepsServedPages(pages, limit, byMember, action, k + 1, tc + |page.entries|, LastId(page));
    }
  }

  /** Every request asks for `min(100, limit - fetched so far)` entries, which is
      between 1 and 100, and carries the member and action filters. */
  lemma {:induction false} FetchRequestSizes(pages: seq<AuditLogPage>, limit: Option<int>,
      byMember: Option<Snowflake>, action: Option<ActionType>, k: nat, tc: int, last: Snowflake)
    ensures var f := FetchFrom(pages, limit, byMember, action, k, tc, last);
      |f.requests| <= |f.kept| + 1
      && forall i :: 0 <= i < |f.requests| ==>
        && i <= |f.kept|
        && f.requests[i].limit == Min(100, Remaining(limit, tc + Total(f.kept[..i])))
        && 1 <= f.requests[i].limit <= 100
        && f.requests[i].userId == byMember && f.requests[i].actionType == action
    decreases |pages| - k
  {
    var f := FetchFrom(pages, limit, byMember, action, k, tc, last);
    var rmn := Min(100, Remaining(limit, tc));
    var page := Served(pages, k);
    if rmn > 0 && |page.entries| != 0 {
      var tc' := tc + |page.entries|;
      var rest := FetchFrom(pages, limit, byMember, action, k + 1, tc', LastId(page));
      FetchRequestSizes(pages, limit, byMember, action, k + 1, tc', LastId(page));
      forall i | 1 <= i < |f.requests|
        ensures f.requests[i].limit == Min(100, Remaining(limit, tc + Total(f.kept[..i])))
      {
        assert f.requests[i] == rest.requests[i - 1];
        assert f.kept[..i][1..] == rest.kept[..i - 1];
      }
    }
  }

  /** The first request continues from the initial cursor, every later one from
      the oldest entry of the page before it. */
  lemma {:induction false} FetchCursors(pages: seq<AuditLogPage>, limit: Option<int>,
      byMember: Option<Snowflake>, action: Option<ActionType>, k: nat, tc: int, last: Snowflake)
    ensures var f := FetchFrom(pages, limit, byMember, action, k, tc, last);
      forall i :: 0 <= i < |f.requests| ==>
        f.requests[i].before ==
          if i == 0 then Cursor(last)
          else if i - 1 < |f.kept| && f.kept[i - 1].entries != [] then Cursor(LastId(f.kept[i - 1]))
          else None
    decreases |pages| - k
  {
    var f := FetchFrom(pages, limit, byMember, action, k, tc, last);
    var rmn := Min(100, Remaining(limit, tc));
    var page := Served(pages, k);
    if rmn > 0 && |page.entries| != 0 {
      var rest := FetchFrom(pages, limit, byMember, action, k + 1, tc + |page.entries|, LastId(page));
      FetchCursors(pages, limit, byMember, action, k + 1, tc + |page.entries|, LastId(page));
      FetchKeepsServedPages(pages, limit, byMember, action, k + 1, tc + |page.entries|, LastId(page));
      forall i | 1 <= i < |f.requests|
        ensures f.requests[i].before == Cursor(LastId(f.kept[i - 1]))
      {
        assert f.requests[i] == rest.requests[i - 1];
      }
    }
  }

  /** The loop stops for one of two reasons: the last request came back empty,
      or the limit leaves nothing to ask for (and then no request is wasted). */
  lemma {:induction false} FetchStops(pages: seq<AuditLogPage>, limit: Option<int>,
      byMember: Option<Snowflake>, action: Option<ActionType>, k: nat, tc: int, last: Snowflake)
    ensures var f := FetchFrom(pages, limit, byMember, action, k, tc, last);
      (|f.requests| == |f.kept| + 1 <==> Min(100, Remaining(limit, tc + Total(f.kept))) > 0)
      && (|f.requests| == |f.kept| + 1 ==> Served(pages, k + |f.kept|).entries == [])
    decreases |pages| - k
  {
    var rmn := Min(100, Remaining(limit, tc));
    var page := Served(pages, k);
    if rmn > 0 && |page.entries| != 0 {
      var f := FetchFrom(pages, limit, byMember, action, k, tc, last);
      var tc' := tc + |page.entries|;
      var rest := FetchFrom(pages, limit, byMember, action, k + 1, tc', LastId(page));
      FetchStops(pages, limit, byMember, action, k + 1, tc', LastId(page));
      assert f.kept[1..] == rest.kept;
    }
  }

  /** Without a limit the loop keeps exactly the non-empty pages before the first
      empty one, and makes one more request than it keeps pages. */
  lemma NoLimitFetchesUntilEmpty(pages: seq<AuditLogPage>, byMember: Option<Snowflake>,
                                 action: Option<ActionType>)
    ensures var f := FetchAll(pages, None, byMember, action);
      |f.requests| == |f.kept| + 1
      && |f.kept| <= |pages| && f.kept == pages[..|f.kept|]
      && (forall i :: 0 <= i < |f.kept| ==> pages[i].entries != [])
      && (|f.kept| == |pages| || pages[|f.kept|].entries == [])
  {
    FetchKeepsServedPages(pages, None, byMember, action, 0, 0, 0);
    FetchStops(pages, None, byMember, action, 0, 0, 0);
    var f := FetchAll(pages, None, byMember, action);
    assert f.kept == pages[..|f.kept|];
  }

  /** With a limit, every request asks for no more than the limit minus what the
      pages before it returned. */
  lemma LimitCapsRequests(pages: seq<AuditLogPage>, limit: int, byMember: Option<Snowflake>,
                          action: Option<ActionType>)
    ensures var f := FetchAll(pages, Some(limit), byMember, action);
      forall i :: 0 <= i < |f.requests| ==>
        i <= |f.kept| && 0 < f.requests[i].limit <= limit - Total(f.kept[..i])
  {
    FetchRequestSizes(pages, Some(limit), byMember, action, 0, 0, 0);
  }

  // ---------------------------------------------------------------------
  // `alrs.SelectMany(xa => xa.Entries)`

  function AllEntries(ps: seq<AuditLogPage>): (r: seq<RawEntry>)
    ensures |r| == Total(ps)
  {
    if ps == [] then [] else ps[0].entries + AllEntries(ps[1..])
  }

  function AllUsers(ps: seq<AuditLogPage>): seq<RawUser> {
    if ps == [] then [] else ps[0].users + AllUsers(ps[1..])
  }

  function AllWebhooks(ps: seq<AuditLogPage>): seq<Webhook> {
    if ps == [] then [] else ps[0].webhooks + AllWebhooks(ps[1..])
  }
}
