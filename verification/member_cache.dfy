/** The guild's member cache: looking a member up (fetching and caching it on
    a miss) and reconciling the cache with a full member listing. */
module MemberCache {
  import opened Wrappers
  import opened Text
  import opened Collections
  import opened AuditTypes

  // ---------------------------------------------------------------------
  // `GetMemberAsync`

  /** The member a lookup returns (or the exception it raises) and the cache after it. */
  datatype Lookup = Lookup(outcome: Result<Member>, members: seq<Member>)

  /** The cached member with the id if there is one; otherwise the platform's
      answer `fetched`, which is appended to the cache when it is a member. */
  function GetMemberSpec(members: seq<Member>, userId: Snowflake, fetched: Result<Member>): Lookup {
    var cached := FirstBy(members, MemberId, userId);
    if cached.Some? then Lookup(Ok(cached.value), members)
    else if fetched.Ok? then Lookup(fetched, members + [fetched.value])
    else Lookup(fetched, members)
  }

  /** A hit returns the cached member and leaves the cache alone; a miss appends
      exactly the fetched member; either way the member has the requested id and
      the cache keeps ids unique. */
  lemma GetMemberCachedOrAppended(members: seq<Member>, userId: Snowflake, fetched: Result<Member>)
    requires fetched.Ok? ==> fetched.value.id == userId
    ensures var r := GetMemberSpec(members, userId, fetched);
      && (r.outcome.Ok? ==> r.outcome.value.id == userId)
      && (userId in Keys(members, MemberId) ==>
            r.members == members && r.outcome.Ok? && r.outcome.value in members)
      && (userId !in Keys(members, MemberId) ==>
            r.outcome == fetched
            && r.members == members + (if fetched.Ok? then [fetched.value] else []))
      && (DistinctBy(members, MemberId) ==> DistinctBy(r.members, MemberId))
  {
    FirstByFinds(members, MemberId, userId);
    var r := GetMemberSpec(members, userId, fetched);
    if userId !in Keys(members, MemberId) && fetched.Ok? && DistinctBy(members, MemberId) {
      forall i | 0 <= i < |members| ensures members[i].id != userId {
        assert Keys(members, MemberId)[i] == members[i].id;
      }
    }
  }

  // ---------------------------------------------------------------------
  // `GetAllMembersAsync`: fetching the listing

  const MemberPageSize := 1000

  /** The cursors of the listing requests and the members received. */
  datatype MemberFetch = MemberFetch(cursors: seq<Option<Snowflake>>, received: seq<Member>)

  /** The answer to the `k`-th listing request: the given pages, then empty ones. */
  function ServedMembers(pages: seq<seq<Member>>, k: nat): (p: seq<Member>)
    ensures k >= |pages| ==> p == []
  {
    if k < |pages| then pages[k] else []
  }

  /** The listing loop from the `k`-th request on: it goes on while a page
      holds exactly 1000 members. */
  function MemberFetchFrom(pages: seq<seq<Member>>, k: nat, last: Snowflake): MemberFetch
    decreases |pages| - k
  {
    var page := ServedMembers(pages, k);
    if |page| == MemberPageSize then
      var rest := MemberFetchFrom(pages, k + 1, page[|page| - 1].id);
      MemberFetch([Cursor(last)] + rest.cursors, page + rest.received)
    else MemberFetch([Cursor(last)], page)
  }

  function Concat(ps: seq<seq<Member>>): seq<Member> {
    if ps == [] then [] else ps[0] + Concat(ps[1..])
  }

  /** The answers to the `n` requests from the `k`-th on. */
  function ServedRun(pages: seq<seq<Member>>, k: nat, n: nat): (r: seq<seq<Member>>)
    ensures |r| == n && forall i :: 0 <= i < n ==> r[i] == ServedMembers(pages, k + i)
  {
    seq(n, i requires 0 <= i < n => ServedMembers(pages, k + i))
  }

  /** The members received are the answers to the requests made, in order. */
  lemma {:induction false} MemberFetchReceives(pages: seq<seq<Member>>, k: nat, last: Snowflake)
    ensures var f := MemberFetchFrom(pages, k, last);
      f.received == Concat(ServedRun(pages, k, |f.cursors|))
    decreases |pages| - k
  {
    var f := MemberFetchFrom(pages, k, last);
    var page := ServedMembers(pages, k);
    var served := ServedRun(pages, k, |f.cursors|);
    if |page| == MemberPageSize {
      var rest := MemberFetchFrom(pages, k + 1, page[|page| - 1].id);
      MemberFetchReceives(pages, k + 1, page[|page| - 1].id);
      assert served[1..] == ServedRun(pages, k + 1, |rest.cursors|);
    } else {
      assert served[1..] == [];
    }
  }

  /** The listing stops at the first answer that is not a full page of 1000:
      every earlier answer is full, the last one is not. */
  lemma {:induction false} MemberFetchStops(pages: seq<seq<Member>>, k: nat, last: Snowflake)
    ensures var f := MemberFetchFrom(pages, k, last);
      var served := ServedRun(pages, k, |f.cursors|);
      && |f.cursors| >= 1
      && (forall i :: 0 <= i < |served| - 1 ==> |served[i]| == MemberPageSize)
      && |served[|served| - 1]| != MemberPageSize
    decreases |pages| - k
  {
    var f := MemberFetchFrom(pages, k, last);
    var page := ServedMembers(pages, k);
    if |page| == MemberPageSize {
      var rest := MemberFetchFrom(pages, k + 1, page[|page| - 1].id);
      MemberFetchStops(pages, k + 1, page[|page| - 1].id);
      var served := ServedRun(pages, k, |f.cursors|);
      var servedRest := ServedRun(pages, k + 1, |rest.cursors|);
      forall i | 1 <= i < |served| ensures served[i] == servedRest[i - 1] {
      }
    }
  }

  /** The first request has the initial cursor; each later one continues after
      the last member of the full page before it. */
  lemma {:induction false} MemberFetchCursors(pages: seq<seq<Member>>, k: nat, last: Snowflake)
    ensures var f := MemberFetchFrom(pages, k, last);
      && |f.cursors| >= 1
      && f.cursors[0] == Cursor(last)
      && (forall i :: 1 <= i < |f.cursors| ==> ContinuesAfter(f.cursors[i], ServedMembers(pages, k + i - 1)))
    decreases |pages| - k
  {
    var f := MemberFetchFrom(pages, k, last);
    var page := ServedMembers(pages, k);
    if |page| == MemberPageSize {
      var rest := MemberFetchFrom(pages, k + 1, page[|page| - 1].id);
      MemberFetchCursors(pages, k + 1, page[|page| - 1].id);
      forall i | 1 <= i < |f.cursors|
        ensures ContinuesAfter(f.cursors[i], ServedMembers(pages, k + i - 1))
      {
        assert f.cursors[i] == rest.cursors[i - 1];
        if i >= 2 {
          assert k + i - 1 == (k + 1) + (i - 1) - 1;
        }
      }
    }
  }

  /** A request's cursor is the last member of a full page before it. */
  predicate ContinuesAfter(cursor: Option<Snowflake>, prev: seq<Member>) {
    |prev| == MemberPageSize && cursor == Cursor(prev[MemberPageSize - 1].id)
  }

  // ---------------------------------------------------------------------
  // `GetAllMembersAsync`: reconciling the cache

  /** The cache without the members whose id was not received (the `RemoveAt` loop). */
  function Retain(cache: seq<Member>, ids: seq<Snowflake>): (r: seq<Member>)
    ensures |r| <= |cache|
    ensures forall x :: x in r ==> x in cache && x.id in ids
  {
    if cache == [] then []
    else
      var x := cache[|cache| - 1];
      Retain(cache[..|cache| - 1], ids) + (if x.id in ids then [x] else [])
  }

  /** `AddRange` of the received members whose id is not yet in the cache, where
      the cache grows as they are added. */
  function AppendAbsent(cache: seq<Member>, received: seq<Member>): (r: seq<Member>)
    ensures |cache| <= |r| && r[..|cache|] == cache
  {
    if received == [] then cache
    else
      var c := AppendAbsent(cache, received[..|received| - 1]);
      var x := received[|received| - 1];
      if x.id in Keys(c, MemberId) then c else c + [x]
  }

  /** The cache after `GetAllMembersAsync` received `received`. */
  function ReconcileSpec(cache: seq<Member>, received: seq<Member>): seq<Member> {
    AppendAbsent(Retain(cache, Keys(received, MemberId)), received)
  }

  lemma {:induction false} FirstByRetain(cache: seq<Member>, ids: seq<Snowflake>, k: Snowflake)
    ensures FirstBy(Retain(cache, ids), MemberId, k) == if k in ids then FirstBy(cache, MemberId, k) else None
  {
    if cache != [] {
      var p := cache[..|cache| - 1];
      var x := cache[|cache| - 1];
      FirstByRetain(p, ids, k);
      FirstByAppend(p, x, MemberId, k);
      assert cache == p + [x];
      if x.id in ids {
        FirstByAppend(Retain(p, ids), x, MemberId, k);
      } else {
        assert Retain(cache, ids) == Retain(p, ids);
      }
    }
  }

  lemma {:induction false} FirstByAppendAbsent(cache: seq<Member>, received: seq<Member>, k: Snowflake)
    ensures FirstBy(AppendAbsent(cache, received), MemberId, k) ==
      if FirstBy(cache, MemberId, k).Some? then FirstBy(cache, MemberId, k) else FirstBy(received, MemberId, k)
  {
    if received != [] {
      var p := received[..|received| - 1];
      var x := received[|received| - 1];
      var c := AppendAbsent(cache, p);
      FirstByAppendAbsent(cache, p, k);
      assert FirstBy(received, MemberId, k) ==
        if FirstBy(p, MemberId, k).Some? then FirstBy(p, MemberId, k)
        else if x.id == k then Some(x) else None;
      if x.id in Keys(c, MemberId) {
        assert AppendAbsent(cache, received) == c;
        FirstByFinds(c, MemberId, x.id);
      } else {
        assert AppendAbsent(cache, received) == c + [x];
        FirstByAppend(c, x, MemberId, k);
      }
    }
  }

  lemma {:induction false} AppendAbsentDistinct(cache: seq<Member>, received: seq<Member>)
    requires DistinctBy(cache, MemberId)
    ensures DistinctBy(AppendAbsent(cache, received), MemberId)
  {
    if received != [] {
      var p := received[..|received| - 1];
      var x := received[|received| - 1];
      var c := AppendAbsent(cache, p);
      AppendAbsentDistinct(cache, p);
      if x.id !in Keys(c, MemberId) {
        forall i | 0 <= i < |c| ensures c[i].id != x.id {
          assert Keys(c, MemberId)[i] == c[i].id;
        }
      }
    }
  }

  lemma {:induction false} RetainDistinct(cache: seq<Member>, ids: seq<Snowflake>)
    requires DistinctBy(cache, MemberId)
    ensures DistinctBy(Retain(cache, ids), MemberId)
  {
    if cache != [] {
      var p := cache[..|cache| - 1];
      var x := cache[|cache| - 1];
      RetainDistinct(p, ids);
      var rp := Retain(p, ids);
      forall y | y in rp ensures y.id != x.id {
        var i :| 0 <= i < |p| && p[i] == y;
        assert cache[i] == y;
      }
    }
  }

  /** After reconciliation the cache holds exactly the received ids, each once;
      a member that was already cached stays as cached (its old data is kept),
      and any other id holds the first member received with it. */
  lemma ReconcileKeepsReceived(cache: seq<Member>, received: seq<Member>)
    requires DistinctBy(cache, MemberId)
    ensures var r := ReconcileSpec(cache, received);
      && DistinctBy(r, MemberId)
      && (forall k :: k in Keys(r, MemberId) <==> k in Keys(received, MemberId))
      && (forall k :: k in Keys(received, MemberId) ==>
            FirstBy(r, MemberId, k) ==
              if k in Keys(cache, MemberId) then FirstBy(cache, MemberId, k)
              else FirstBy(received, MemberId, k))
  {
    var ids := Keys(received, MemberId);
    var kept := Retain(cache, ids);
    var r := ReconcileSpec(cache, received);
    RetainDistinct(cache, ids);
    AppendAbsentDistinct(kept, received);
    forall k
      ensures FirstBy(r, MemberId, k) ==
        if k in ids then (if FirstBy(cache, MemberId, k).Some? then FirstBy(cache, MemberId, k)
                          else FirstBy(received, MemberId, k))
        else None
    {
      FirstByRetain(cache, ids, k);
      FirstByAppendAbsent(kept, received, k);
      FirstByFinds(received, MemberId, k);
    }
    forall k ensures k in Keys(r, MemberId) <==> k in ids {
      FirstByFinds(r, MemberId, k);
      FirstByFinds(received, MemberId, k);
    }
    forall k | k in ids
      ensures FirstBy(r, MemberId, k) ==
        if k in Keys(cache, MemberId) then FirstBy(cache, MemberId, k) else FirstBy(received, MemberId, k)
    {
      FirstByFinds(cache, MemberId, k);
    }
  }
}
