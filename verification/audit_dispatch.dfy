/** Turning the fetched raw entries into audit-log entries: every entry in
    descending id order, dispatched on its action type, its changes applied one
    by one, then classified and attributed to the user responsible. */
module AuditDispatch {
  import opened Wrappers
  import opened Text
  import opened Collections
  import opened AuditTypes
  import opened AuditPaging
  import opened AuditRefs
  import opened AuditChanges

  // ---------------------------------------------------------------------
  // One entry

  /** The changes of an entry applied in order; the first exception ends it. */
  function ApplyChanges(env: Env, b: EntryBody, members: seq<Member>, cs: seq<Change>): Step {
    if cs == [] then Step(Ok(b), members)
    else
      var s := ApplyChanges(env, b, members, cs[..|cs| - 1]);
      if s.outcome.Err? then s else ApplyChange(env, s.outcome.value, s.members, cs[|cs| - 1])
  }

  /** The entry built from one raw entry (None when it is skipped), or the
      exception, and the member cache after it. */
  datatype EntryStep = EntryStep(outcome: Result<Option<AuditEntry>>, members: seq<Member>)

  function DispatchEntry(env: Env, raw: RawEntry, members: seq<Member>): EntryStep {
    var init := InitialBody(env, raw);
    if init.Err? then EntryStep(Err(init.error), members)
    else if init.value.None? then EntryStep(Ok(None), members)
    else
      var s := ApplyChanges(env, init.value.value, members, raw.changes);
      if s.outcome.Err? then EntryStep(Err(s.outcome.error), s.members)
      else if raw.userId !in env.amd then EntryStep(Err(KeyNotFound), s.members)
      else
        var entry := AuditEntry(raw.id, raw.actionType, CategoryOf(raw.actionType), raw.reason,
                                env.amd[raw.userId], s.outcome.value);
        EntryStep(Ok(Some(entry)), s.members)
  }

  /** Once a change has thrown, later changes are not read. */
  lemma {:induction false} ApplyChangesErrSticks(env: Env, b: EntryBody, members: seq<Member>,
                                                 cs: seq<Change>, k: nat)
    requires k <= |cs| && ApplyChanges(env, b, members, cs[..k]).outcome.Err?
    ensures ApplyChanges(env, b, members, cs) == ApplyChanges(env, b, members, cs[..k])
    decreases |cs| - k
  {
    if k < |cs| {
      var p := cs[..|cs| - 1];
      assert p[..k] == cs[..k];
      ApplyChangesErrSticks(env, b, members, p, k);
    } else {
      assert cs[..k] == cs;
    }
  }

  /** The entry as the source builds it: the dispatch on the action type, then
      the loop over the changes, then the finishing assignments. */
  method BuildEntry(env: Env, raw: RawEntry, members: seq<Member>)
    returns (outcome: Result<Option<AuditEntry>>, cache: seq<Member>)
    ensures EntryStep(outcome, cache) == DispatchEntry(env, raw, members)
  {
    var init := InitialBody(env, raw);
    if init.Err? {
      return Err(init.error), members;
    }
    if init.value.None? {
      return Ok(None), members;
    }
    var s := ApplyEach(env, init.value.value, members, raw.changes);
    cache := s.members;
    if s.outcome.Err? {
      return Err(s.outcome.error), cache;
    }
    if raw.userId !in env.amd {
      return Err(KeyNotFound), cache;
    }
    outcome := Ok(Some(AuditEntry(raw.id, raw.actionType, CategoryOf(raw.actionType), raw.reason,
                                  env.amd[raw.userId], s.outcome.value)));
  }

  /** The `foreach` over an entry's changes. */
  method ApplyEach(env: Env, start: EntryBody, members: seq<Member>, changes: seq<Change>) returns (s: Step)
    ensures s == ApplyChanges(env, start, members, changes)
  {
    var body := start;
    var cache := members;
    var i := 0;
    while i < |changes|
      invariant 0 <= i <= |changes|
      invariant ApplyChanges(env, start, members, changes[..i]) == Step(Ok(body), cache)
    {
      var t := ApplyChange(env, body, cache, changes[i]);
      assert changes[..i + 1][..i] == changes[..i];
      if t.outcome.Err? {
        ApplyChangesErrSticks(env, start, members, changes, i + 1);
        return t;
      }
      body, cache := t.outcome.value, t.members;
      i := i + 1;
    }
    assert changes[..i] == changes;
    s := Step(Ok(body), cache);
  }

  // ---------------------------------------------------------------------
  // All entries

  /** The entries built so far, or the exception that ended the loop, and the cache. */
  datatype Run = Run(outcome: Result<seq<AuditEntry>>, members: seq<Member>)

  function DispatchAll(env: Env, raws: seq<RawEntry>, members: seq<Member>): Run {
    if raws == [] then Run(Ok([]), members)
    else
      var r := DispatchAll(env, raws[..|raws| - 1], members);
      if r.outcome.Err? then r
      else
        var e := DispatchEntry(env, raws[|raws| - 1], r.members);
        if e.outcome.Err? then Run(Err(e.outcome.error), e.members)
        else Run(Ok(r.outcome.value + Opt(e.outcome.value)), e.members)
  }

  function Opt<T>(o: Option<T>): (r: seq<T>)
    ensures |r| <= 1
  {
    if o.Some? then [o.value] else []
  }

  /** The raw entries that become entries: those of a known action type. */
  function Kept(raws: seq<RawEntry>): (r: seq<RawEntry>)
    ensures |r| <= |raws|
  {
    if raws == [] then []
    else Kept(raws[..|raws| - 1]) + (if Recognized(raws[|raws| - 1].actionType) then [raws[|raws| - 1]] else [])
  }

  /** What an entry keeps of its raw entry. */
  predicate Summarises(e: AuditEntry, raw: RawEntry, env: Env) {
    && e.id == raw.id && e.actionType == raw.actionType && e.reason == raw.reason
    && e.category == CategoryOf(raw.actionType)
    && raw.userId in env.amd && e.userResponsible == env.amd[raw.userId]
    && BodyFits(raw.actionType, e.body)
  }

  /** Without an exception, the entries are the raw entries of known action
      types, in their order, each carrying its raw entry's id, action type and
      reason, its category, the user responsible and a body of its family. */
  lemma {:induction false} DispatchAllSummarises(env: Env, raws: seq<RawEntry>, members: seq<Member>)
    requires DispatchAll(env, raws, members).outcome.Ok?
    ensures var out := DispatchAll(env, raws, members).outcome.value;
      && |out| == |Kept(raws)|
      && forall i :: 0 <= i < |out| ==> Summarises(out[i], Kept(raws)[i], env)
  {
    if raws != [] {
      var p := raws[..|raws| - 1];
      var x := raws[|raws| - 1];
      var r := DispatchAll(env, p, members);
      DispatchAllSummarises(env, p, members);
      var e := DispatchEntry(env, x, r.members);
      InitialBodyFits(env, x);
      if e.outcome.value.Some? {
        var init := InitialBody(env, x);
        ApplyChangesKeepKind(env, init.value.value, r.members, x.changes);
      }
    }
  }

  /** Applying changes never changes the kind of entry. */
  lemma {:induction false} ApplyChangesKeepKind(env: Env, b: EntryBody, members: seq<Member>, cs: seq<Change>)
    ensures ApplyChanges(env, b, members, cs).outcome.Ok? ==> SameKind(b, ApplyChanges(env, b, members, cs).outcome.value)
  {
    if cs != [] {
      var s := ApplyChanges(env, b, members, cs[..|cs| - 1]);
      ApplyChangesKeepKind(env, b, members, cs[..|cs| - 1]);
      if s.outcome.Ok? {
        ChangeKeepsShape(env, s.outcome.value, s.members, cs[|cs| - 1]);
      }
    }
  }

  /** Keeping the entries of known action types keeps them in order. */
  lemma {:induction false} KeptFrom(raws: seq<RawEntry>)
    ensures forall i :: 0 <= i < |Kept(raws)| ==>
      exists j :: 0 <= j < |raws| && raws[j] == Kept(raws)[i] && |Kept(raws[..j])| == i
  {
    if raws != [] {
      var p := raws[..|raws| - 1];
      var x := raws[|raws| - 1];
      KeptFrom(p);
      assert Kept(raws) == Kept(p) + (if Recognized(x.actionType) then [x] else []);
      forall i | 0 <= i < |Kept(raws)|
        ensures exists j :: 0 <= j < |raws| && raws[j] == Kept(raws)[i] && |Kept(raws[..j])| == i
      {
        if i < |Kept(p)| {
          var j :| 0 <= j < |p| && p[j] == Kept(p)[i] && |Kept(p[..j])| == i;
          assert p[..j] == raws[..j];
          assert raws[j] == Kept(raws)[i] && |Kept(raws[..j])| == i;
        } else {
          var j := |raws| - 1;
          assert raws[..j] == p;
          assert raws[j] == Kept(raws)[i] && |Kept(raws[..j])| == i;
        }
      }
    } else {
      assert Kept(raws) == [];
    }
  }

  /** An element kept before another came before it. */
  lemma {:induction false} KeptPrefixMonotone(raws: seq<RawEntry>, j1: nat, j2: nat)
    requires j1 <= j2 <= |raws|
    ensures |Kept(raws[..j1])| <= |Kept(raws[..j2])|
    decreases j2 - j1
  {
    if j1 < j2 {
      KeptPrefixMonotone(raws, j1, j2 - 1);
      assert raws[..j2][..j2 - 1] == raws[..j2 - 1];
    }
  }

  /** Keeping the entries of known action types keeps a descending order. */
  lemma KeptDescending(raws: seq<RawEntry>)
    ensures forall y :: y in Kept(raws) ==> y in raws
    ensures Descending(raws, RawEntryKey) ==> Descending(Kept(raws), RawEntryKey)
    ensures StrictlyDescending(raws, RawEntryKey) ==> StrictlyDescending(Kept(raws), RawEntryKey)
  {
    var kept := Kept(raws);
    KeptFrom(raws);
    forall i1, i2 | 0 <= i1 < i2 < |kept|
      ensures exists j1, j2 :: 0 <= j1 < j2 < |raws| && raws[j1] == kept[i1] && raws[j2] == kept[i2]
    {
      var j1 :| 0 <= j1 < |raws| && raws[j1] == kept[i1] && |Kept(raws[..j1])| == i1;
      var j2 :| 0 <= j2 < |raws| && raws[j2] == kept[i2] && |Kept(raws[..j2])| == i2;
      if j2 <= j1 {
        KeptPrefixMonotone(raws, j2, j1);
      }
    }
  }

  /** The member cache only ever gains members, keeping ids unique, when the
      platform answers member requests honestly. */
  lemma {:induction false} DispatchAllGrowsCache(env: Env, raws: seq<RawEntry>, members: seq<Member>)
    requires HonestFetch(env) && KeyedById(env.gms)
    ensures members <= DispatchAll(env, raws, members).members
    ensures DistinctBy(members, MemberId) ==> DistinctBy(DispatchAll(env, raws, members).members, MemberId)
  {
    if raws != [] {
      var p := raws[..|raws| - 1];
      var r := DispatchAll(env, p, members);
      DispatchAllGrowsCache(env, p, members);
      if r.outcome.Ok? {
        DispatchEntryGrowsCache(env, raws[|raws| - 1], r.members);
      }
    }
  }

  lemma DispatchEntryGrowsCache(env: Env, raw: RawEntry, members: seq<Member>)
    requires HonestFetch(env) && KeyedById(env.gms)
    ensures members <= DispatchEntry(env, raw, members).members
    ensures DistinctBy(members, MemberId) ==> DistinctBy(DispatchEntry(env, raw, members).members, MemberId)
  {
    var init := InitialBody(env, raw);
    if init.Ok? && init.value.Some? {
      ApplyChangesGrowCache(env, init.value.value, members, raw.changes);
    }
  }

  lemma {:induction false} ApplyChangesGrowCache(env: Env, b: EntryBody, members: seq<Member>, cs: seq<Change>)
    requires HonestFetch(env) && KeyedById(env.gms)
    ensures members <= ApplyChanges(env, b, members, cs).members
    ensures DistinctBy(members, MemberId) ==> DistinctBy(ApplyChanges(env, b, members, cs).members, MemberId)
  {
    if cs != [] {
      var s := ApplyChanges(env, b, members, cs[..|cs| - 1]);
      ApplyChangesGrowCache(env, b, members, cs[..|cs| - 1]);
      if s.outcome.Ok? {
        ChangeGrowsCache(env, s.outcome.value, s.members, cs[|cs| - 1]);
      }
    }
  }

  lemma ChangeGrowsCache(env: Env, b: EntryBody, members: seq<Member>, c: Change)
    requires HonestFetch(env) && KeyedById(env.gms)
    ensures members <= ApplyChange(env, b, members, c).members
    ensures DistinctBy(members, MemberId) ==> DistinctBy(ApplyChange(env, b, members, c).members, MemberId)
  {
    ChangeKeepsShape(env, b, members, c);
    if b.GuildChanges? && ToLower(c.key) == "owner_id" {
      OwnerResolves(env, b, members, c);
    }
  }

  // ---------------------------------------------------------------------
  // The whole of `GetAuditLogsAsync`

  /** The guild state the call reads. */
  datatype GuildState = GuildState(id: Snowflake, name: Option<string>, splashHash: Option<string>,
                                   members: seq<Member>, channels: seq<Channel>, roles: seq<Role>,
                                   emojis: seq<Emoji>)

  /** The call's arguments and what the platform answers: the audit-log pages,
      the guild's webhook list, member requests and the client's message cache. */
  datatype Query = Query(limit: Option<int>, byMember: Option<Snowflake>, action: Option<ActionType>)

  datatype Platform = Platform(pages: seq<AuditLogPage>, webhooks: Result<seq<Webhook>>,
                               fetchMember: Snowflake -> Result<Member>,
                               messageCache: Option<seq<Message>>)

  /** The requests made, whether the webhook list was requested, the entries
      or the exception, and the member cache afterwards. */
  datatype AuditRun = AuditRun(requests: seq<Request>, webhooksRequested: bool,
                               outcome: Result<seq<AuditEntry>>, members: seq<Member>)

  /** The raw entries of the kept pages, newest first. */
  function Ordered(kept: seq<AuditLogPage>): seq<RawEntry> {
    SortDesc(AllEntries(kept), RawEntryKey)
  }

  function AuditLogs(g: GuildState, q: Query, p: Platform): AuditRun {
    var gmsr := ToDictionary(g.members, MemberId);
    if gmsr.Err? then AuditRun([], false, Err(gmsr.error), g.members)
    else
      var f := FetchAll(p.pages, q.limit, q.byMember, q.action);
      var amd := UserDirectory(gmsr.value, AllUsers(f.kept));
      if amd.Err? then AuditRun(f.requests, false, Err(amd.error), g.members)
      else
        var wl := WebhookDirectory(AllWebhooks(f.kept), p.webhooks);
        if wl.directory.Err? then AuditRun(f.requests, wl.requested, Err(wl.directory.error), g.members)
        else
          var env := EntryEnv(g, p, gmsr.value, amd.value, wl.directory.value);
          var run := DispatchAll(env, Ordered(f.kept), g.members);
          AuditRun(f.requests, wl.requested, run.outcome, run.members)
  }

  /** A member cache with a repeated id makes the call throw before any request. */
  lemma DuplicateMembersThrowFirst(g: GuildState, q: Query, p: Platform)
    requires !DistinctBy(g.members, MemberId)
    ensures AuditLogs(g, q, p) == AuditRun([], false, Err(DuplicateKey), g.members)
  {
  }

  /** The requests are those of the paging loop, and the webhook list is
      requested exactly when a kept page references a webhook. */
  lemma AuditLogsRequests(g: GuildState, q: Query, p: Platform)
    requires DistinctBy(g.members, MemberId)
    ensures var f := FetchAll(p.pages, q.limit, q.byMember, q.action);
      && AuditLogs(g, q, p).requests == f.requests
      && (AuditLogs(g, q, p).webhooksRequested <==> AllWebhooks(f.kept) != [])
  {
    var f := FetchAll(p.pages, q.limit, q.byMember, q.action);
    var gms := ToMapBy(g.members, MemberId);
    UserDirectoryResolves(gms, AllUsers(f.kept));
    WebhooksRequestedIffReferenced(AllWebhooks(f.kept), p.webhooks);
  }

  /** Without an exception, the entries follow the order of the raw entries
      they come from, and there are no more of them. */
  lemma DispatchAllOrdered(env: Env, raws: seq<RawEntry>, members: seq<Member>)
    requires DispatchAll(env, raws, members).outcome.Ok?
    ensures var out := DispatchAll(env, raws, members).outcome.value;
      && |out| == |Kept(raws)| <= |raws|
      && (forall i :: 0 <= i < |out| ==> Kept(raws)[i] in raws && out[i].id == Kept(raws)[i].id)
      && (Descending(raws, RawEntryKey) ==> Descending(out, EntryKey))
      && (StrictlyDescending(raws, RawEntryKey) ==> StrictlyDescending(out, EntryKey))
  {
    var out := DispatchAll(env, raws, members).outcome.value;
    var kept := Kept(raws);
    DispatchAllSummarises(env, raws, members);
    KeptDescending(raws);
    forall i | 0 <= i < |out| ensures kept[i] in raws {
      assert kept[i] in kept;
    }
    if Descending(raws, RawEntryKey) {
      forall i, j | 0 <= i < j < |out| ensures out[i].id >= out[j].id {
        assert kept[i].id >= kept[j].id;
      }
    }
    if StrictlyDescending(raws, RawEntryKey) {
      forall i, j | 0 <= i < j < |out| ensures out[i].id > out[j].id {
        assert kept[i].id > kept[j].id;
      }
    }
  }

  /** The raw entries newest first: the same entries, in descending id order. */
  lemma OrderedEntries(kept: seq<AuditLogPage>)
    ensures |Ordered(kept)| == Total(kept)
    ensures forall x :: x in Ordered(kept) ==> x in AllEntries(kept)
    ensures Descending(Ordered(kept), RawEntryKey)
    ensures DistinctKeys(AllEntries(kept), RawEntryKey) ==> StrictlyDescending(Ordered(kept), RawEntryKey)
  {
    SortDescSorted(AllEntries(kept), RawEntryKey);
    assert |multiset(Ordered(kept))| == |multiset(AllEntries(kept))|;
    forall x | x in Ordered(kept) ensures x in AllEntries(kept) {
      assert x in multiset(Ordered(kept));
    }
    if DistinctKeys(AllEntries(kept), RawEntryKey) {
      SortDescStrict(AllEntries(kept), RawEntryKey);
    }
  }

  /** The environment the entries are built in, once the member snapshot, the
      user directory and the webhook directory exist. */
  function EntryEnv(g: GuildState, p: Platform, gms: map<Snowflake, Member>, amd: map<Snowflake, Member>,
                    ahd: Option<map<Snowflake, Webhook>>): Env {
    Env(g.id, g.name, g.splashHash, gms, g.channels, g.roles, g.emojis, amd, ahd, p.messageCache, p.fetchMember)
  }

  /** Without an exception, the entries are the fetched raw entries of known
      action types in descending id order (strictly so when raw ids are
      unique), each summarising its raw entry, and there are no more entries
      than raw entries. */
  lemma AuditLogsEntries(g: GuildState, q: Query, p: Platform)
    requires AuditLogs(g, q, p).outcome.Ok?
    ensures var f := FetchAll(p.pages, q.limit, q.byMember, q.action);
      var out := AuditLogs(g, q, p).outcome.value;
      var kept := Kept(Ordered(f.kept));
      && |out| == |kept| <= Total(f.kept)
      && (forall i :: 0 <= i < |out| ==>
            && out[i].id == kept[i].id && out[i].actionType == kept[i].actionType
            && out[i].reason == kept[i].reason && out[i].category == CategoryOf(kept[i].actionType)
            && kept[i] in AllEntries(f.kept))
      && Descending(out, EntryKey)
      && (DistinctKeys(AllEntries(f.kept), RawEntryKey) ==> StrictlyDescending(out, EntryKey))
  {
    var f := FetchAll(p.pages, q.limit, q.byMember, q.action);
    var gms := ToDictionary(g.members, MemberId).value;
    var amd := UserDirectory(gms, AllUsers(f.kept)).value;
    var wl := WebhookDirectory(AllWebhooks(f.kept), p.webhooks);
    var env := EntryEnv(g, p, gms, amd, wl.directory.value);
    var raws := Ordered(f.kept);
    assert AuditLogs(g, q, p).outcome == DispatchAll(env, raws, g.members).outcome;
    DispatchAllSummarises(env, raws, g.members);
    DispatchAllOrdered(env, raws, g.members);
    OrderedEntries(f.kept);
  }

  /** The member cache only ever gains members and keeps ids unique, when the
      platform answers member requests with the member asked for. */
  lemma AuditLogsGrowCache(g: GuildState, q: Query, p: Platform)
    requires forall id :: p.fetchMember(id).Ok? ==> p.fetchMember(id).value.id == id
    ensures g.members <= AuditLogs(g, q, p).members
    ensures DistinctBy(g.members, MemberId) ==> DistinctBy(AuditLogs(g, q, p).members, MemberId)
  {
    if DistinctBy(g.members, MemberId) {
      var f := FetchAll(p.pages, q.limit, q.byMember, q.action);
      var gms := ToMapBy(g.members, MemberId);
      var amd := UserDirectory(gms, AllUsers(f.kept));
      var wl := WebhookDirectory(AllWebhooks(f.kept), p.webhooks);
      if amd.Ok? && wl.directory.Ok? {
        var env := EntryEnv(g, p, gms, amd.value, wl.directory.value);
        assert AuditLogs(g, q, p).members == DispatchAll(env, Ordered(f.kept), g.members).members;
        DispatchAllGrowsCache(env, Ordered(f.kept), g.members);
      }
    }
  }
}
