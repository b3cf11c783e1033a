/** A guild: its member cache and the operations that update it in place, the
    audit-log call, the role reorder payload, its image addresses and its
    id-based equality. */
module Guilds {
  import opened Wrappers
  import opened Text
  import opened Collections
  import opened Cdn
  import opened AuditTypes
  import opened AuditPaging
  import opened MemberCache
  import opened AuditChanges
  import opened AuditDispatch
  import AuditRefs

  // ---------------------------------------------------------------------
  // The role reorder payload of `UpdateRolePositionAsync`

  /** One element of the payload: a role and the position it is sent with. */
  datatype RoleReorder = RoleReorder(roleId: Snowflake, position: int)

  function RolePosition(r: Role): int { r.position }

  function ReorderId(p: RoleReorder): Snowflake { p.roleId }

  /** The roles other than @everyone, whose id is the guild's. */
  function OtherRoles(roles: seq<Role>, guildId: Snowflake): (r: seq<Role>)
    ensures forall x :: x in r ==> x in roles && x.id != guildId
  {
    if roles == [] then []
    else
      var x := roles[|roles| - 1];
      OtherRoles(roles[..|roles| - 1], guildId) + (if x.id != guildId then [x] else [])
  }

  /** `Where(xr => xr.Id != this.Id).OrderByDescending(xr => xr.Position)`. */
  function ReorderedRoles(roles: seq<Role>, guildId: Snowflake): seq<Role> {
    SortDesc(OtherRoles(roles, guildId), RolePosition)
  }

  /** The position a role is sent with when `target` moves to `position`: the
      target takes it, a role at or below it moves down by one (wrapping as
      32-bit arithmetic does), the rest keep theirs. */
  function NewPosition(r: Role, target: Snowflake, position: int): int {
    if r.id == target then position
    else if r.position <= position then Int32Wrap(r.position - 1)
    else r.position
  }

  /** The payload for roles already in the order they are sent. */
  function PayloadOf(rs: seq<Role>, target: Snowflake, position: int): (r: seq<RoleReorder>)
    ensures |r| == |rs| && forall i :: 0 <= i < |rs| ==> r[i].roleId == rs[i].id
  {
    seq(|rs|, i requires 0 <= i < |rs| => RoleReorder(rs[i].id, NewPosition(rs[i], target, position)))
  }

  function ReorderPayload(roles: seq<Role>, guildId: Snowflake, target: Snowflake, position: int): seq<RoleReorder> {
    PayloadOf(ReorderedRoles(roles, guildId), target, position)
  }

  /** The roles are sent in descending order of their current positions, and
      they are exactly the roles other than @everyone. */
  lemma ReorderedRolesOrder(roles: seq<Role>, guildId: Snowflake)
    ensures var rs := ReorderedRoles(roles, guildId);
      && |rs| == |OtherRoles(roles, guildId)|
      && multiset(rs) == multiset(OtherRoles(roles, guildId))
      && Descending(rs, RolePosition)
      && forall x :: x in rs ==> x in roles && x.id != guildId
  {
    var others := OtherRoles(roles, guildId);
    var rs := ReorderedRoles(roles, guildId);
    SortDescSorted(others, RolePosition);
    assert |multiset(rs)| == |multiset(others)|;
    forall x | x in rs ensures x in others {
      assert x in multiset(rs);
    }
  }

  /** A role at the lowest 32-bit position that moves down wraps to the highest. */
  lemma Int32Decrement(x: int)
    requires IntMin <= x <= IntMax
    ensures Int32Wrap(x - 1) == if x == IntMin then IntMax else x - 1
  {
  }

  /** The moved role gets the requested position, a role at or below it one
      less, any other its own. */
  lemma PayloadPositions(rs: seq<Role>, target: Snowflake, position: int)
    requires forall r :: r in rs ==> IntMin <= r.position <= IntMax
    ensures var p := PayloadOf(rs, target, position);
      forall i :: 0 <= i < |p| ==>
        && (p[i].roleId == target ==> p[i].position == position)
        && (p[i].roleId != target && rs[i].position <= position ==>
              p[i].position == if rs[i].position == IntMin then IntMax else rs[i].position - 1)
        && (p[i].roleId != target && rs[i].position > position ==> p[i].position == rs[i].position)
  {
    forall i | 0 <= i < |rs| && rs[i].id != target && rs[i].position <= position
      ensures Int32Wrap(rs[i].position - 1) == if rs[i].position == IntMin then IntMax else rs[i].position - 1
    {
      assert rs[i] in rs;
      Int32Decrement(rs[i].position);
    }
  }

  /** The payload names the roles other than @everyone, one element each, in
      descending order of their current positions, with the positions
      `PayloadPositions` states. */
  lemma ReorderPayloadShape(roles: seq<Role>, guildId: Snowflake, target: Snowflake, position: int)
    requires forall r :: r in roles ==> IntMin <= r.position <= IntMax
    ensures var p := ReorderPayload(roles, guildId, target, position);
      var rs := ReorderedRoles(roles, guildId);
      && |p| == |rs| == |OtherRoles(roles, guildId)|
      && (forall i :: 0 <= i < |p| ==> p[i].roleId == rs[i].id && rs[i] in roles && rs[i].id != guildId)
      && p == PayloadOf(rs, target, position)
      && forall r :: r in rs ==> IntMin <= r.position <= IntMax
  {
    var rs := ReorderedRoles(roles, guildId);
    ReorderedRolesOrder(roles, guildId);
    forall i | 0 <= i < |rs| ensures rs[i] in roles && rs[i].id != guildId {
      assert rs[i] in rs;
    }
  }

  /** Every role other than @everyone is in the payload exactly as often as it
      is among the guild's roles. */
  lemma {:induction false} OtherRolesCount(roles: seq<Role>, guildId: Snowflake, r: Role)
    ensures multiset(OtherRoles(roles, guildId))[r] == if r.id == guildId then 0 else multiset(roles)[r]
  {
    if roles != [] {
      var p := roles[..|roles| - 1];
      OtherRolesCount(p, guildId, r);
      assert roles == p + [roles[|roles| - 1]];
    }
  }

  // ---------------------------------------------------------------------
  // Objects a guild is compared with

  /** What `Equals(object)` can be given: null, a guild, or something else. */
  datatype GuildObject = NullObject | AGuild(guild: Guild) | OtherObject

  class Guild {
    const id: Snowflake
    var name: Option<string>
    var iconHash: Option<string>
    var splashHash: Option<string>
    var members: seq<Member>
    var memberCount: int
    var channels: seq<Channel>
    var roles: seq<Role>
    var emojis: seq<Emoji>

    /** The member cache holds each id once. */
    predicate Valid()
      reads this
    {
      DistinctBy(members, MemberId)
    }

    constructor (id: Snowflake, name: Option<string>, iconHash: Option<string>, splashHash: Option<string>,
                 members: seq<Member>, channels: seq<Channel>, roles: seq<Role>, emojis: seq<Emoji>)
      requires DistinctBy(members, MemberId)
      ensures Valid()
      ensures this.id == id && this.name == name && this.iconHash == iconHash && this.splashHash == splashHash
      ensures this.members == members && this.memberCount == |members|
      ensures this.channels == channels && this.roles == roles && this.emojis == emojis
    {
      this.id := id;
      this.name := name;
      this.iconHash := iconHash;
      this.splashHash := splashHash;
      this.members := members;
      this.memberCount := |members|;
      this.channels := channels;
      this.roles := roles;
      this.emojis := emojis;
    }

    /** The state the audit-log call reads. */
    function State(): GuildState
      reads this
    {
      GuildState(id, name, splashHash, members, channels, roles, emojis)
    }

    // -------------------------------------------------------------------
    // Image addresses

    /** The icon's address, null when the hash is null or blank. */
    function IconUrl(): (r: Option<string>)
      reads this
      ensures r.Some? <==> !IsNullOrWhiteSpace(iconHash)
      ensures r.Some? ==> r.value == CdnUrl("icons", id, iconHash.value, ".jpg")
    {
      if !IsNullOrWhiteSpace(iconHash) then Some(CdnUrl("icons", id, iconHash.value, ".jpg")) else None
    }

    /** The splash's address, null when the hash is null or blank. */
    function SplashUrl(): (r: Option<string>)
      reads this
      ensures r.Some? <==> !IsNullOrWhiteSpace(splashHash)
      ensures r.Some? ==> r.value == CdnUrl("splashes", id, splashHash.value, ".jpg")
    {
      if !IsNullOrWhiteSpace(splashHash) then Some(CdnUrl("splashes", id, splashHash.value, ".jpg")) else None
    }

    // -------------------------------------------------------------------
    // Equality by id

    /** `Equals(DiscordGuild)`. */
    function Equals(e: Option<Guild>): bool {
      if e.None? then false
      else if e.value == this then true
      else id == e.value.id
    }

    /** `Equals(object)`: an object that is not a guild compares as null. */
    function EqualsObject(o: GuildObject): bool {
      Equals(if o.AGuild? then Some(o.guild) else None)
    }

    function HashCode(): int {
      UlongHash(id)
    }

    static function OpEq(e1: Option<Guild>, e2: Option<Guild>): bool {
      if (e1.None? && e2.Some?) || (e1.Some? && e2.None?) then false
      else if e1.None? && e2.None? then true
      else e1.value.id == e2.value.id
    }

    static function OpNe(e1: Option<Guild>, e2: Option<Guild>): bool {
      !OpEq(e1, e2)
    }

    // -------------------------------------------------------------------
    // Role positions

    /** `UpdateRolePositionAsync`: the payload sent to move `target` to
        `position`, filled element by element into a new array. */
    method RolePositionPayload(target: Snowflake, position: int) returns (pmds: array<RoleReorder>)
      ensures fresh(pmds) && pmds[..] == ReorderPayload(roles, id, target, position)
    {
      var rs := ReorderedRoles(roles, id);
      pmds := new RoleReorder[|rs|];
      for i := 0 to |rs|
        invariant pmds[..i] == PayloadOf(rs, target, position)[..i]
      {
        var pos := if rs[i].id == target then position
                   else if rs[i].position <= position then Int32Wrap(rs[i].position - 1)
                   else rs[i].position;
        pmds[i] := RoleReorder(rs[i].id, pos);
      }
      assert pmds[..] == pmds[..|rs|];
    }

    // -------------------------------------------------------------------
    // The member cache

    /** `GetMemberAsync`: the cached member, or the platform's answer, which is
        added to the cache when it is a member. */
    method GetMember(userId: Snowflake, fetched: Result<Member>) returns (r: Result<Member>)
      modifies this`members
      ensures Lookup(r, members) == GetMemberSpec(old(members), userId, fetched)
      ensures old(members) <= members
      ensures old(Valid()) && (fetched.Ok? ==> fetched.value.id == userId) ==> Valid()
    {
      if fetched.Ok? ==> fetched.value.id == userId {
        GetMemberCachedOrAppended(members, userId, fetched);
      }
      var mbr := FirstBy(members, MemberId, userId);
      if mbr.Some? {
        return Ok(mbr.value);
      }
      r := fetched;
      if fetched.Ok? {
        members := members + [fetched.value];
      }
    }

    /** `GetAllMembersAsync`: lists every member in pages of 1000, drops the
        cached members that were not received, adds the received ones that are
        not cached, and sets the member count. */
    method GetAllMembers(pages: seq<seq<Member>>)
      returns (cursors: seq<Option<Snowflake>>, received: seq<Member>, result: seq<Member>)
      requires Valid()
      modifies this`members, this`memberCount
      ensures MemberFetch(cursors, received) == MemberFetchFrom(pages, 0, 0)
      ensures members == ReconcileSpec(old(members), received)
      ensures memberCount == |members| && result == members && Valid()
    {
      cursors, received := ListMembers(pages);
      var ids := Keys(received, MemberId);
      RemoveNotReceived(ids);
      AddAbsent(received);
      RetainDistinct(old(members), ids);
      AppendAbsentDistinct(Retain(old(members), ids), received);
      memberCount := |members|;
      result := members;
    }

    /** The listing loop: requests go on while a full page of 1000 comes back. */
    static method ListMembers(pages: seq<seq<Member>>) returns (cursors: seq<Option<Snowflake>>, received: seq<Member>)
      ensures MemberFetch(cursors, received) == MemberFetchFrom(pages, 0, 0)
    {
      var recd := MemberPageSize;
      var last: Snowflake := 0;
      var k: nat := 0;
      cursors, received := [], [];
      while recd == MemberPageSize
        invariant recd == MemberPageSize ==> k <= |pages|
        invariant MemberFetchFrom(pages, 0, 0) ==
          if recd == MemberPageSize then MThen(MemberFetch(cursors, received), MemberFetchFrom(pages, k, last))
          else MemberFetch(cursors, received)
        decreases |pages| + 1 - k
      {
        var mbrs := ServedMembers(pages, k);
        ghost var before := MemberFetch(cursors, received);
        ghost var prevLast := last;
        cursors := cursors + [Cursor(last)];
        recd := |mbrs|;
        last := if mbrs != [] then mbrs[|mbrs| - 1].id else 0;
        received := received + mbrs;
        MThenStep(before, Cursor(prevLast), mbrs, if recd == MemberPageSize then MemberFetchFrom(pages, k + 1, last) else MemberFetch([], []));
        k := k + 1;
      }
    }

    /** The `RemoveAt(i--)` loop: keeps the cached members whose id was received. */
    method RemoveNotReceived(ids: seq<Snowflake>)
      modifies this`members
      ensures members == Retain(old(members), ids)
    {
      ghost var orig := members;
      ghost var j := 0;
      var i := 0;
      while i < |members|
        invariant 0 <= j <= |orig| && i == |Retain(orig[..j], ids)|
        invariant members == Retain(orig[..j], ids) + orig[j..]
        decreases |members| - i
      {
        RemoveStep(orig, ids, j, members);
        if members[i].id !in ids {
          members := members[..i] + members[i + 1..];
        } else {
          i := i + 1;
        }
        j := j + 1;
      }
      assert orig[..j] == orig;
    }

    /** `AddRange` over the lazily filtered received members: each is added
        when its id is not in the cache at that moment. */
    method AddAbsent(received: seq<Member>)
      modifies this`members
      ensures members == AppendAbsent(old(members), received)
    {
      ghost var start := members;
      var j := 0;
      while j < |received|
        invariant 0 <= j <= |received|
        invariant members == AppendAbsent(start, received[..j])
      {
        var x := received[j];
        assert received[..j + 1][..j] == received[..j];
        if x.id !in Keys(members, MemberId) {
          members := members + [x];
        }
        j := j + 1;
      }
      assert received[..j] == received;
    }

    // -------------------------------------------------------------------
    // The audit log

    /** `GetAuditLogsAsync`: the paging loop, the user and webhook directories,
        then the loop over the raw entries newest first. */
    method GetAuditLogs(q: Query, p: Platform)
      returns (requests: seq<Request>, webhooksRequested: bool, outcome: Result<seq<AuditEntry>>)
      modifies this`members
      ensures AuditRun(requests, webhooksRequested, outcome, members) == AuditLogs(old(State()), q, p)
      ensures (forall id :: p.fetchMember(id).Ok? ==> p.fetchMember(id).value.id == id) ==>
                old(members) <= members && (old(Valid()) ==> Valid())
    {
      if forall id :: p.fetchMember(id).Ok? ==> p.fetchMember(id).value.id == id {
        AuditLogsGrowCache(State(), q, p);
      }
      var g := State();
      var gmsr := ToDictionary(members, MemberId);
      if gmsr.Err? {
        return [], false, Err(gmsr.error);
      }
      var kept;
      requests, kept := FetchPages(p.pages, q.limit, q.byMember, q.action);
      var amd := AuditRefs.UserDirectory(gmsr.value, AllUsers(kept));
      if amd.Err? {
        return requests, false, Err(amd.error);
      }
      var wl := AuditRefs.WebhookDirectory(AllWebhooks(kept), p.webhooks);
      webhooksRequested := wl.requested;
      if wl.directory.Err? {
        return requests, webhooksRequested, Err(wl.directory.error);
      }
      var env := EntryEnv(g, p, gmsr.value, amd.value, wl.directory.value);
      outcome := DispatchEntries(env, Ordered(kept));
    }

    /** The `foreach` over the raw entries, newest first: each entry is built,
        and the first exception ends the call. */
    method DispatchEntries(env: Env, acs: seq<RawEntry>) returns (outcome: Result<seq<AuditEntry>>)
      modifies this`members
      ensures Run(outcome, members) == DispatchAll(env, acs, old(members))
      ensures HonestFetch(env) && AuditRefs.KeyedById(env.gms) ==> old(members) <= members && (old(Valid()) ==> Valid())
    {
      ghost var members0 := members;
      if HonestFetch(env) && AuditRefs.KeyedById(env.gms) {
        DispatchAllGrowsCache(env, acs, members0);
      }
      var entries: seq<AuditEntry> := [];
      var i := 0;
      while i < |acs|
        invariant 0 <= i <= |acs|
        invariant DispatchAll(env, acs[..i], members0) == Run(Ok(entries), members)
      {
        var e, cache := BuildEntry(env, acs[i], members);
        members := cache;
        assert acs[..i + 1][..i] == acs[..i];
        if e.Err? {
          DispatchAllErrSticks(env, acs, members0, i + 1);
          return Err(e.error);
        }
        entries := entries + Opt(e.value);
        i := i + 1;
      }
      assert acs[..i] == acs;
      outcome := Ok(entries);
    }
  }

  // ---------------------------------------------------------------------
  // Properties of the image addresses and of equality

  /** Two guilds with the same icon address have the same id and icon hash. */
  lemma IconUrlIdentifies(g1: Guild, g2: Guild)
    requires g1.IconUrl().Some? && g1.IconUrl() == g2.IconUrl()
    ensures g1.id == g2.id && g1.iconHash == g2.iconHash
  {
    CdnUrlInjective("icons", ".jpg", g1.id, g1.iconHash.value, g2.id, g2.iconHash.value);
  }

  /** Two guilds with the same splash address have the same id and splash hash. */
  lemma SplashUrlIdentifies(g1: Guild, g2: Guild)
    requires g1.SplashUrl().Some? && g1.SplashUrl() == g2.SplashUrl()
    ensures g1.id == g2.id && g1.splashHash == g2.splashHash
  {
    CdnUrlInjective("splashes", ".jpg", g1.id, g1.splashHash.value, g2.id, g2.splashHash.value);
  }

  /** An icon address is never a splash address. */
  lemma IconIsNotSplash(g1: Guild, g2: Guild)
    requires g1.IconUrl().Some? && g2.SplashUrl().Some?
    ensures g1.IconUrl() != g2.SplashUrl()
  {
    var n := |CdnBase|;
    assert g1.IconUrl().value[n] == 'i';
    assert g2.SplashUrl().value[n] == 's';
  }

  /** `==` on guilds is an equivalence: null equals only null, and two guilds
      are equal exactly when their ids are. */
  lemma OpEqEquivalence(a: Option<Guild>, b: Option<Guild>, c: Option<Guild>)
    ensures Guild.OpEq(a, a)
    ensures Guild.OpEq(a, b) == Guild.OpEq(b, a)
    ensures Guild.OpEq(a, b) && Guild.OpEq(b, c) ==> Guild.OpEq(a, c)
    ensures Guild.OpEq(a, b) <==> (a.None? && b.None?) || (a.Some? && b.Some? && a.value.id == b.value.id)
    ensures Guild.OpNe(a, b) <==> !Guild.OpEq(a, b)
  {
  }

  /** `Equals` agrees with `==` for a guild that is not null, an object that
      is not a guild is never equal, and equal guilds hash alike. */
  lemma EqualsAgrees(g: Guild, e: Option<Guild>, o: GuildObject)
    ensures g.Equals(e) <==> Guild.OpEq(Some(g), e)
    ensures g.EqualsObject(o) <==> o.AGuild? && o.guild.id == g.id
    ensures e.Some? && g.Equals(e) ==> g.HashCode() == e.value.HashCode()
  {
  }

  // ---------------------------------------------------------------------
  // Helpers for the loops

  function MThen(a: MemberFetch, b: MemberFetch): MemberFetch {
    MemberFetch(a.cursors + b.cursors, a.received + b.received)
  }

  lemma MThenStep(a: MemberFetch, cursor: Option<Snowflake>, page: seq<Member>, rest: MemberFetch)
    ensures MThen(a, MThen(MemberFetch([cursor], page), rest)) == MThen(MemberFetch(a.cursors + [cursor], a.received + page), rest)
  {
    assert a.cursors + ([cursor] + rest.cursors) == (a.cursors + [cursor]) + rest.cursors;
    assert a.received + (page + rest.received) == (a.received + page) + rest.received;
  }

  /** One step of the `RemoveAt` loop keeps its invariant. */
  lemma RemoveStep(orig: seq<Member>, ids: seq<Snowflake>, j: nat, members: seq<Member>)
    requires j < |orig| && members == Retain(orig[..j], ids) + orig[j..]
    ensures var i := |Retain(orig[..j], ids)|;
      && i < |members| && members[i] == orig[j]
      && (orig[j].id !in ids ==> members[..i] + members[i + 1..] == Retain(orig[..j + 1], ids) + orig[j + 1..]
                                 && i == |Retain(orig[..j + 1], ids)|)
      && (orig[j].id in ids ==> members == Retain(orig[..j + 1], ids) + orig[j + 1..]
                                && i + 1 == |Retain(orig[..j + 1], ids)|)
  {
    var kept := Retain(orig[..j], ids);
    assert orig[..j + 1][..j] == orig[..j];
    assert Retain(orig[..j + 1], ids) == kept + (if orig[j].id in ids then [orig[j]] else []);
    assert orig[j..] == [orig[j]] + orig[j + 1..];
    if orig[j].id !in ids {
      assert members[..|kept|] == kept && members[|kept| + 1..] == orig[j + 1..];
    }
  }

  /** Once an entry has thrown, later entries are not read. */
  lemma {:induction false} DispatchAllErrSticks(env: Env, raws: seq<RawEntry>, members: seq<Member>, k: nat)
    requires k <= |raws| && DispatchAll(env, raws[..k], members).outcome.Err?
    ensures DispatchAll(env, raws, members) == DispatchAll(env, raws[..k], members)
    decreases |raws| - k
  {
    if k < |raws| {
      var p := raws[..|raws| - 1];
      assert p[..k] == raws[..k];
      DispatchAllErrSticks(env, p, members, k);
    } else {
      assert raws[..k] == raws;
    }
  }
}
