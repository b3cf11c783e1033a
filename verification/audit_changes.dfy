/** Building one audit-log entry: the entry each action family starts from, and
    how each change record (`key`, old value, new value) fills in a property. */
module AuditChanges {
  import opened Wrappers
  import opened Text
  import opened Collections
  import opened Cdn
  import opened AuditTypes
  import opened MemberCache
  import opened AuditRefs

  /** What entry building reads besides the raw entry: the guild's identity and
      caches, the snapshot `gms` of the member cache, the resolved users `amd`
      and webhooks `ahd`, the client's message cache (None when the client has
      none), and the platform's answer to a member request. */
  datatype Env = Env(guildId: Snowflake, guildName: Option<string>, splashHash: Option<string>,
                     gms: map<Snowflake, Member>, channels: seq<Channel>, roles: seq<Role>,
                     emojis: seq<Emoji>, amd: map<Snowflake, Member>,
                     ahd: Option<map<Snowflake, Webhook>>, messageCache: Option<seq<Message>>,
                     fetchMember: Snowflake -> Result<Member>)

  /** The entry after a change, or the exception, and the member cache (which
      an owner change can grow even when it then throws). */
  datatype Step = Step(outcome: Result<EntryBody>, members: seq<Member>)

  // ---------------------------------------------------------------------
  // Reading values

  /** `ulong.TryParse(value as string, …)`: null when it fails. */
  function ParseUlong(v: Json): Option<Snowflake> {
    var p := ParseInteger(AsString(v), 0, UlongMax);
    if p.Some? then Some(p.value as Snowflake) else None
  }

  /** `int.TryParse(value as string, …)`: null when it fails. */
  function ParseInt(v: Json): Option<int> {
    ParseInteger(AsString(v), IntMin, IntMax)
  }

  /** The `out` value of a `ulong.TryParse` whose result is not checked. */
  function UlongOrZero(v: Json): Snowflake {
    ParseUlong(v).GetOr(0)
  }

  function WrapInt32(v: Option<int>): Option<int> {
    if v.Some? then Some(Int32Wrap(v.value)) else None
  }

  function WrapInt64(v: Option<int>): Option<int> {
    if v.Some? then Some(Int64Wrap(v.value)) else None
  }

  function StringChange(c: Change): Pc<Option<string>> {
    Some(PropertyChange(AsString(c.oldValue), AsString(c.newValue)))
  }

  function ChannelById(env: Env, id: Snowflake): Option<Channel> {
    FirstBy(env.channels, ChannelId, id)
  }

  function ChannelIfParsed(env: Env, id: Option<Snowflake>): Option<Channel> {
    if id.Some? then ChannelById(env, id.value) else None
  }

  function MemberIfResolved(env: Env, id: Snowflake): Option<Member> {
    if id in env.amd then Some(env.amd[id]) else None
  }

  function IconAuditUrl(guildId: Snowflake, hash: string): string {
    CdnUrl("icons", guildId, hash, ".webp")
  }

  function SplashAuditUrl(guildId: Snowflake, hash: string): string {
    CdnUrl("splashes", guildId, hash, ".webp?size=2048")
  }

  function AvatarAuditUrl(webhookId: Snowflake, hash: string): string {
    CdnUrl("splashes", webhookId, hash, ".png?size=1024")
  }

  // ---------------------------------------------------------------------
  // The entry each action family starts from

  /** `xac.TargetId.Value`, which throws on a missing target. */
  function TargetValue(raw: RawEntry): Result<Snowflake> {
    if raw.targetId.Some? then Ok(raw.targetId.value) else Err(InvalidOperation)
  }

  /** The `TryGet` predicate: this id in this channel. */
  predicate MessageMatches(m: Message, id: Snowflake, channelId: Snowflake) {
    m.id == id && m.channelId == channelId
  }

  /** The first message of the cache in this channel with this id (`TryGet`):
      nothing exactly when no cached message matches, and otherwise the
      earliest match. */
  function CachedMessageFor(cache: seq<Message>, id: Snowflake, channelId: Snowflake): (r: Option<Message>)
    ensures r.Some? ==> r.value in cache && r.value.id == id && r.value.channelId == channelId
    ensures r.None? <==> forall i :: 0 <= i < |cache| ==> !MessageMatches(cache[i], id, channelId)
    ensures forall i :: (0 <= i < |cache| && MessageMatches(cache[i], id, channelId)
                         && forall j :: 0 <= j < i ==> !MessageMatches(cache[j], id, channelId))
                        ==> r == Some(cache[i])
  {
    if cache == [] then None
    else if cache[0].id == id && cache[0].channelId == channelId then Some(cache[0])
    else CachedMessageFor(cache[1..], id, channelId)
  }

  /** `list.FirstOrDefault(x => x.Id == xac.TargetId.Value)`: the predicate
      reads the target id only when there is an element to test it on, so an
      empty list gives null even for an entry without a target. */
  function FirstWithTarget<T>(s: seq<T>, key: T -> Snowflake, raw: RawEntry): (r: Result<Option<T>>)
    ensures r.Err? <==> s != [] && raw.targetId.None?
    ensures r.Err? ==> r.error == InvalidOperation
    ensures r.Ok? && raw.targetId.Some? ==> r.value == FirstBy(s, key, raw.targetId.value)
    ensures r.Ok? && raw.targetId.None? ==> r.value == None
  {
    if s == [] then Ok(None)
    else
      var t :- TargetValue(raw);
      Ok(FirstBy(s, key, t))
  }

  /** `amd.ContainsKey(xac.TargetId.Value) ? amd[…] : null`. */
  function ResolvedTarget(env: Env, raw: RawEntry): Result<Option<Member>> {
    var t :- TargetValue(raw);
    Ok(MemberIfResolved(env, t))
  }

  /** The entry for the raw entry's action type before its changes are read;
      None for an action type the dispatcher does not know (the entry is skipped). */
  function InitialBody(env: Env, raw: RawEntry): Result<Option<EntryBody>> {
    match raw.actionType
    case GuildUpdate =>
      Ok(Some(GuildChanges(None, None, None, None, None, None, None)))
    case ChannelCreate | ChannelUpdate | ChannelDelete =>
      var target :- FirstWithTarget(env.channels, ChannelId, raw);
      Ok(Some(ChannelChanges(target, None, None, None, None)))
    case OverwriteCreate | OverwriteUpdate | OverwriteDelete =>
      var channel :- FirstWithTarget(env.channels, ChannelId, raw);
      if channel.Some? && channel.value.overwrites != [] && raw.options.None? then Err(NullReference)
      else
        var target := if channel.Some? && raw.options.Some?
                      then FirstBy(channel.value.overwrites, OverwriteId, raw.options.value.id)
                      else None;
        Ok(Some(OverwriteChanges(target, channel, None, None, None, None)))
    case Kick =>
      var target :- ResolvedTarget(env, raw);
      Ok(Some(KickEntry(target)))
    case Prune =>
      if raw.options.None? then Err(NullReference)
      else Ok(Some(PruneEntry(raw.options.value.deleteMemberDays, raw.options.value.membersRemoved)))
    case Ban | Unban =>
      var target :- ResolvedTarget(env, raw);
      Ok(Some(BanEntry(target)))
    case MemberUpdate | MemberRoleUpdate =>
      var target :- ResolvedTarget(env, raw);
      Ok(Some(MemberChanges(target, None, None, None, None, None)))
    case RoleCreate | RoleUpdate | RoleDelete =>
      var target :- FirstWithTarget(env.roles, RoleId, raw);
      Ok(Some(RoleChanges(target, None, None, None, None, None)))
    case InviteCreate | InviteUpdate | InviteDelete =>
      var invite := Invite(env.guildId, env.guildName, env.splashHash, None, None);
      Ok(Some(InviteChanges(invite, None, None, None, None, None, None, None)))
    case WebhookCreate | WebhookUpdate | WebhookDelete =>
      var t :- TargetValue(raw);
      if env.ahd.None? then Err(NullReference)
      else
        var target := if t in env.ahd.value then Some(env.ahd.value[t]) else None;
        Ok(Some(WebhookChanges(target, None, None, None, None)))
    case EmojiCreate | EmojiUpdate | EmojiDelete =>
      var target :- FirstWithTarget(env.emojis, EmojiId, raw);
      Ok(Some(EmojiChanges(target, None)))
    case MessageDelete =>
      var channel := if raw.options.Some? then ChannelById(env, raw.options.value.id) else None;
      var count := if raw.options.Some? then Some(raw.options.value.messageCount) else None;
      if channel.None? then Ok(Some(MessageDeleteEntry(None, count, None)))
      else
        var t :- TargetValue(raw);
        var cached := if env.messageCache.Some? then CachedMessageFor(env.messageCache.value, t, channel.value.id)
                      else None;
        var message := if cached.Some? then CachedMessage(cached.value) else MessagePlaceholder(t);
        Ok(Some(MessageDeleteEntry(channel, count, Some(message))))
    case Unrecognized(_) =>
      Ok(None)
  }

  // ---------------------------------------------------------------------
  // One change record, family by family

  /** `gms[id]` when the snapshot has the member, else `GetMemberAsync(id)`. */
  function ResolveOwner(env: Env, members: seq<Member>, id: Snowflake): Lookup {
    if id in env.gms then Lookup(Ok(env.gms[id]), members)
    else GetMemberSpec(members, id, env.fetchMember(id))
  }

  function OwnerChange(env: Env, b: EntryBody, members: seq<Member>, c: Change): (r: Step)
    requires b.GuildChanges?
    ensures r.outcome.Ok? ==> r.outcome.value.GuildChanges?
  {
    var o := AsUlong(c.oldValue);
    if o.Err? then Step(Err(o.error), members)
    else
      var before := ResolveOwner(env, members, o.value);
      if before.outcome.Err? then Step(Err(before.outcome.error), before.members)
      else
        var n := AsUlong(c.newValue);
        if n.Err? then Step(Err(n.error), before.members)
        else
          var after := ResolveOwner(env, before.members, n.value);
          if after.outcome.Err? then Step(Err(after.outcome.error), after.members)
          else
            Step(Ok(b.(owner := Some(PropertyChange(before.outcome.value, after.outcome.value)))), after.members)
  }

  function GuildChange(env: Env, b: EntryBody, members: seq<Member>, c: Change): Step
    requires b.GuildChanges?
  {
    var key := ToLower(c.key);
    if key == "owner_id" then OwnerChange(env, b, members, c)
    else
      var r: Result<EntryBody> :=
        if key == "name" then Ok(b.(name := StringChange(c)))
        else if key == "icon_hash" then
          var o := AsString(c.oldValue);
          var n := AsString(c.newValue);
          Ok(b.(icon := Some(PropertyChange(
            if o.Some? then Some(IconAuditUrl(env.guildId, o.value)) else None,
            if o.Some? then Some(IconAuditUrl(env.guildId, n.GetOr(""))) else None))))
        else if key == "verification_level" then
          var before :- UnboxLong(c.oldValue);
          var after :- UnboxLong(c.newValue);
          Ok(b.(verificationLevel := Some(PropertyChange(Int32Wrap(before), Int32Wrap(after)))))
        else if key == "afk_channel_id" then
          Ok(b.(afkChannel := Some(PropertyChange(ChannelById(env, UlongOrZero(c.newValue)),
                                                  ChannelById(env, UlongOrZero(c.oldValue))))))
        else if key == "widget_channel_id" then
          Ok(b.(embedChannel := Some(PropertyChange(ChannelById(env, UlongOrZero(c.newValue)),
                                                    ChannelById(env, UlongOrZero(c.oldValue))))))
        else if key == "splash_hash" then
          var o := AsString(c.oldValue);
          var n := AsString(c.newValue);
          Ok(b.(splash := Some(PropertyChange(
            if o.Some? then Some(SplashAuditUrl(env.guildId, o.value)) else None,
            if n.Some? then Some(SplashAuditUrl(env.guildId, n.value)) else None))))
        else Ok(b);
      Step(r, members)
  }

  function ChannelChange(b: EntryBody, c: Change): Result<EntryBody>
    requires b.ChannelChanges?
  {
    var key := ToLower(c.key);
    if key == "name" then Ok(b.(channelName := StringChange(c)))
    else if key == "type" then
      Ok(b.(channelType := Some(PropertyChange(WrapInt32(ParseUlong(c.newValue)),
                                               WrapInt32(ParseUlong(c.oldValue))))))
    else if key == "permission_overwrites" then
      Ok(b.(overwrites := Some(PropertyChange(Overwrites(ObjectsOf(c.oldValue)),
                                              Overwrites(ObjectsOf(c.newValue))))))
    else if key == "topic" then Ok(b.(topic := StringChange(c)))
    else Ok(b)
  }

  /** The overwrites an array of JSON objects deserialises to. */
  function Overwrites(objects: Option<seq<JObject>>): (r: Option<seq<Overwrite>>)
    ensures r.Some? <==> objects.Some?
    ensures r.Some? ==> |r.value| == |objects.value|
                        && forall i :: 0 <= i < |r.value| ==> r.value[i].id == objects.value[i].id
  {
    if objects.None? then None
    else Some(seq(|objects.value|, i requires 0 <= i < |objects.value| =>
                    Overwrite(objects.value[i].id, objects.value[i].payload)))
  }

  function OverwriteChange(b: EntryBody, c: Change): Result<EntryBody>
    requires b.OverwriteChanges?
  {
    var key := ToLower(c.key);
    if key == "deny" then
      var v := WrapInt64(ParseUlong(c.oldValue));
      Ok(b.(deny := Some(PropertyChange(v, v))))
    else if key == "allow" then
      var v := WrapInt64(ParseUlong(c.oldValue));
      Ok(b.(allow := Some(PropertyChange(v, v))))
    else if key == "type" then Ok(b.(overwriteType := StringChange(c)))
    else if key == "id" then
      Ok(b.(overwriteTargetId := Some(PropertyChange(ParseUlong(c.oldValue), ParseUlong(c.newValue)))))
    else Ok(b)
  }

  /** `NewValues.Select(id => roles.FirstOrDefault(r => r.Id == id))`, which
      throws when the value is not an array. */
  function RolesOf(env: Env, v: Json): Result<seq<Option<Role>>> {
    var objects := ObjectsOf(v);
    if objects.None? then Err(ArgumentNull)
    else Ok(seq(|objects.value|, i requires 0 <= i < |objects.value| =>
                  FirstBy(env.roles, RoleId, objects.value[i].id)))
  }

  function MemberChange(env: Env, b: EntryBody, c: Change): Result<EntryBody>
    requires b.MemberChanges?
  {
    var key := ToLower(c.key);
    if key == "nick" then Ok(b.(nickname := StringChange(c)))
    else if key == "deaf" then
      var before :- UnboxBoolOrNull(c.oldValue);
      var after :- UnboxBoolOrNull(c.newValue);
      Ok(b.(deaf := Some(PropertyChange(before, after))))
    else if key == "mute" then
      var before :- UnboxBoolOrNull(c.oldValue);
      var after :- UnboxBoolOrNull(c.newValue);
      Ok(b.(mute := Some(PropertyChange(before, after))))
    else if key == "$add" then
      var roles :- RolesOf(env, c.newValue);
      Ok(b.(addedRoles := Some(roles)))
    else if key == "$remove" then
      var roles :- RolesOf(env, c.newValue);
      Ok(b.(removedRoles := Some(roles)))
    else Ok(b)
  }

  function RoleChange(b: EntryBody, c: Change): Result<EntryBody>
    requires b.RoleChanges?
  {
    var key := ToLower(c.key);
    if key == "name" then Ok(b.(roleName := StringChange(c)))
    else if key == "color" then
      Ok(b.(color := Some(PropertyChange(ParseInt(c.oldValue), ParseInt(c.newValue)))))
    else if key == "permissions" then
      var before :- UnboxLongOrNull(c.oldValue);
      var after :- UnboxLongOrNull(c.newValue);
      Ok(b.(permissions := Some(PropertyChange(before, after))))
    else if key == "position" then
      var before :- UnboxLongOrNull(c.oldValue);
      var after :- UnboxLongOrNull(c.newValue);
      Ok(b.(position := Some(PropertyChange(WrapInt32(before), WrapInt32(after)))))
    else if key == "mentionable" then
      var before :- UnboxBoolOrNull(c.oldValue);
      var after :- UnboxBoolOrNull(c.newValue);
      Ok(b.(mentionable := Some(PropertyChange(before, after))))
    else Ok(b)
  }

  function InviteChange(env: Env, b: EntryBody, c: Change): Result<EntryBody>
    requires b.InviteChanges?
  {
    var key := ToLower(c.key);
    if key == "max_age" then
      var v := ParseInt(c.oldValue);
      Ok(b.(maxAge := Some(PropertyChange(v, v))))
    else if key == "code" then
      var o := AsString(c.oldValue);
      var n := AsString(c.newValue);
      Ok(b.(invite := b.invite.(code := o.OrElse(n)), code := Some(PropertyChange(o, n))))
    else if key == "temporary" then
      var before :- UnboxBoolOrNull(c.oldValue);
      var after :- UnboxBoolOrNull(c.newValue);
      Ok(b.(temporary := Some(PropertyChange(before, after))))
    else if key == "inviter_id" then
      Ok(b.(inviter := Some(PropertyChange(MemberIfResolved(env, UlongOrZero(c.oldValue)),
                                           MemberIfResolved(env, UlongOrZero(c.newValue))))))
    else if key == "channel_id" then
      var p1 := ParseUlong(c.oldValue);
      var p2 := ParseUlong(c.newValue);
      var before := ChannelIfParsed(env, p1);
      var after := ChannelIfParsed(env, p2);
      var ch := before.OrElse(after);
      var channel := InviteChannel(if p1.Some? then p1.value else p2.GetOr(0),
                                   if ch.Some? then Some(ch.value.name) else None,
                                   if ch.Some? then Some(ch.value.channelType) else None);
      Ok(b.(inviteChannel := Some(PropertyChange(before, after)),
            invite := b.invite.(channel := Some(channel))))
    else if key == "uses" then
      var v := ParseInt(c.oldValue);
      Ok(b.(uses := Some(PropertyChange(v, v))))
    else if key == "max_uses" then
      var v := ParseInt(c.oldValue);
      Ok(b.(maxUses := Some(PropertyChange(v, v))))
    else Ok(b)
  }

  function WebhookChange(env: Env, b: EntryBody, c: Change): Result<EntryBody>
    requires b.WebhookChanges?
  {
    var key := ToLower(c.key);
    if key == "name" then Ok(b.(webhookName := StringChange(c)))
    else if key == "channel_id" then
      Ok(b.(webhookChannel := Some(PropertyChange(ChannelIfParsed(env, ParseUlong(c.oldValue)),
                                                  ChannelIfParsed(env, ParseUlong(c.newValue))))))
    else if key == "type" then
      Ok(b.(webhookType := Some(PropertyChange(ParseInt(c.oldValue), ParseInt(c.newValue)))))
    else if key == "avatar_hash" then
      var o := AsString(c.oldValue);
      var n := AsString(c.newValue);
      if o.Some? && b.webhookTarget.None? then Err(NullReference)
      else if n.Some? && b.webhookTarget.None? then Err(NullReference)
      else
        Ok(b.(avatar := Some(PropertyChange(
          if o.Some? then Some(AvatarAuditUrl(b.webhookTarget.value.id, o.value)) else None,
          if n.Some? then Some(AvatarAuditUrl(b.webhookTarget.value.id, n.value)) else None))))
    else Ok(b)
  }

  function EmojiChange(b: EntryBody, c: Change): Result<EntryBody>
    requires b.EmojiChanges?
  {
    if ToLower(c.key) == "name" then Ok(b.(emojiName := StringChange(c))) else Ok(b)
  }

  /** One change record applied to an entry; kick, prune, ban and message-delete
      entries do not read their changes. */
  function ApplyChange(env: Env, b: EntryBody, members: seq<Member>, c: Change): Step {
    match b
    case GuildChanges(_, _, _, _, _, _, _) => GuildChange(env, b, members, c)
    case ChannelChanges(_, _, _, _, _) => Step(ChannelChange(b, c), members)
    case OverwriteChanges(_, _, _, _, _, _) => Step(OverwriteChange(b, c), members)
    case MemberChanges(_, _, _, _, _, _) => Step(MemberChange(env, b, c), members)
    case RoleChanges(_, _, _, _, _, _) => Step(RoleChange(b, c), members)
    case InviteChanges(_, _, _, _, _, _, _, _) => Step(InviteChange(env, b, c), members)
    case WebhookChanges(_, _, _, _, _) => Step(WebhookChange(env, b, c), members)
    case EmojiChanges(_, _) => Step(EmojiChange(b, c), members)
    case _ => Step(Ok(b), members)
  }

  // ---------------------------------------------------------------------
  // Properties of entry building

  /** The entry kind each action type starts from. */
  predicate BodyFits(a: ActionType, b: EntryBody) {
    match a
    case GuildUpdate => b.GuildChanges?
    case ChannelCreate | ChannelUpdate | ChannelDelete => b.ChannelChanges?
    case OverwriteCreate | OverwriteUpdate | OverwriteDelete => b.OverwriteChanges?
    case Kick => b.KickEntry?
    case Prune => b.PruneEntry?
    case Ban | Unban => b.BanEntry?
    case MemberUpdate | MemberRoleUpdate => b.MemberChanges?
    case RoleCreate | RoleUpdate | RoleDelete => b.RoleChanges?
    case InviteCreate | InviteUpdate | InviteDelete => b.InviteChanges?
    case WebhookCreate | WebhookUpdate | WebhookDelete => b.WebhookChanges?
    case EmojiCreate | EmojiUpdate | EmojiDelete => b.EmojiChanges?
    case MessageDelete => b.MessageDeleteEntry?
    case Unrecognized(_) => false
  }

  /** Only an unknown action type is skipped; any other that does not throw
      starts an entry of its own family. */
  lemma InitialBodyFits(env: Env, raw: RawEntry)
    ensures InitialBody(env, raw) == Ok(None) <==> !Recognized(raw.actionType)
    ensures InitialBody(env, raw).Ok? && InitialBody(env, raw).value.Some? ==>
      BodyFits(raw.actionType, InitialBody(env, raw).value.value)
  {
  }

  /** Whether building the entry reads `xac.TargetId.Value`: always for kick,
      ban, member and webhook entries, for a deleted message once its channel
      is known, and for channel, overwrite, role and emoji entries only when
      the list searched is not empty. */
  predicate ReadsTarget(env: Env, raw: RawEntry) {
    match raw.actionType
    case ChannelCreate | ChannelUpdate | ChannelDelete => env.channels != []
    case OverwriteCreate | OverwriteUpdate | OverwriteDelete => env.channels != []
    case RoleCreate | RoleUpdate | RoleDelete => env.roles != []
    case EmojiCreate | EmojiUpdate | EmojiDelete => env.emojis != []
    case Kick | Ban | Unban | MemberUpdate | MemberRoleUpdate => true
    case WebhookCreate | WebhookUpdate | WebhookDelete => true
    case MessageDelete => raw.options.Some? && ChannelById(env, raw.options.value.id).Some?
    case _ => false
  }

  /** An entry without a target id throws exactly when its target id is read. */
  lemma MissingTargetThrows(env: Env, raw: RawEntry)
    requires raw.targetId.None?
    ensures InitialBody(env, raw).Err? <==> ReadsTarget(env, raw) || (raw.actionType.Prune? && raw.options.None?)
    ensures InitialBody(env, raw).Err? && !raw.actionType.Prune? ==> InitialBody(env, raw).error == InvalidOperation
  {
  }

  /** With a target id, building the entry throws only for a prune entry
      without options, a webhook entry when no webhook was referenced, or an
      overwrite entry of a known channel with overwrites but no options. */
  lemma NullOptionsThrow(env: Env, raw: RawEntry)
    requires raw.targetId.Some?
    ensures InitialBody(env, raw).Err? <==>
      || (raw.actionType.Prune? && raw.options.None?)
      || (raw.actionType in {WebhookCreate, WebhookUpdate, WebhookDelete} && env.ahd.None?)
      || (raw.actionType in {OverwriteCreate, OverwriteUpdate, OverwriteDelete} && raw.options.None?
          && var channel := ChannelById(env, raw.targetId.value);
             channel.Some? && channel.value.overwrites != [])
    ensures InitialBody(env, raw).Err? ==> InitialBody(env, raw).error == NullReference
  {
  }

  /** A deleted message in a known channel is the first cached message with
      that id in that channel, or else a placeholder carrying the id. */
  lemma DeletedMessageResolves(env: Env, raw: RawEntry)
    requires raw.actionType.MessageDelete? && raw.targetId.Some?
    requires raw.options.Some? && ChannelById(env, raw.options.value.id).Some?
    ensures var r := InitialBody(env, raw);
      && r.Ok? && r.value.Some? && r.value.value.message.Some?
      && var m := r.value.value.message.value;
         (m.CachedMessage? ==>
            m.message.id == raw.targetId.value && m.message.channelId == raw.options.value.id
            && env.messageCache.Some? && m.message in env.messageCache.value
            && Some(m.message) == CachedMessageFor(env.messageCache.value, raw.targetId.value, raw.options.value.id))
         && (m.MessagePlaceholder? ==> m.messageId == raw.targetId.value)
         && (m.MessagePlaceholder? <==>
               env.messageCache.None?
               || CachedMessageFor(env.messageCache.value, raw.targetId.value, raw.options.value.id).None?)
  {
  }

  // ---------------------------------------------------------------------
  // Properties of one change record

  /** The keys whose handling can throw: an owner change (a failed parse or
      member request), an unboxing cast, a role list without an array, and a
      webhook avatar without a target. */
  const ThrowingKeys: set<string> :=
    {"owner_id", "verification_level", "deaf", "mute", "$add", "$remove",
     "permissions", "position", "mentionable", "temporary", "avatar_hash"}

  /** The keys each entry kind understands; any other key is only logged. */
  function KnownKeys(b: EntryBody): set<string> {
    match b
    case GuildChanges(_, _, _, _, _, _, _) =>
      {"name", "owner_id", "icon_hash", "verification_level", "afk_channel_id", "widget_channel_id", "splash_hash"}
    case ChannelChanges(_, _, _, _, _) => {"name", "type", "permission_overwrites", "topic"}
    case OverwriteChanges(_, _, _, _, _, _) => {"deny", "allow", "type", "id"}
    case MemberChanges(_, _, _, _, _, _) => {"nick", "deaf", "mute", "$add", "$remove"}
    case RoleChanges(_, _, _, _, _, _) => {"name", "color", "permissions", "position", "mentionable"}
    case InviteChanges(_, _, _, _, _, _, _, _) =>
      {"max_age", "code", "temporary", "inviter_id", "channel_id", "uses", "max_uses"}
    case WebhookChanges(_, _, _, _, _) => {"name", "channel_id", "type", "avatar_hash"}
    case EmojiChanges(_, _) => {"name"}
    case _ => {}
  }

  /** What every change record keeps: the kind of entry, an unknown key leaves
      the entry as it was, only the keys in `ThrowingKeys` can throw, and only
      an owner change touches the member cache. */
  predicate ShapeKept(b: EntryBody, members: seq<Member>, c: Change, r: Step) {
    && (r.outcome.Ok? ==> SameKind(b, r.outcome.value))
    && (ToLower(c.key) !in KnownKeys(b) ==> r == Step(Ok(b), members))
    && (r.outcome.Err? ==> ToLower(c.key) in ThrowingKeys)
    && (ToLower(c.key) != "owner_id" ==> r.members == members)
  }

  lemma ChangeKeepsShape(env: Env, b: EntryBody, members: seq<Member>, c: Change)
    ensures ShapeKept(b, members, c, ApplyChange(env, b, members, c))
  {
    var r := ApplyChange(env, b, members, c);
    match b
    case GuildChanges(_, _, _, _, _, _, _) => GuildChangeShape(env, b, members, c);
    case ChannelChanges(_, _, _, _, _) => ChannelChangeShape(b, members, c);
    case OverwriteChanges(_, _, _, _, _, _) => OverwriteChangeShape(b, members, c);
    case MemberChanges(_, _, _, _, _, _) => MemberChangeShape(env, b, members, c);
    case RoleChanges(_, _, _, _, _, _) => RoleChangeShape(b, members, c);
    case InviteChanges(_, _, _, _, _, _, _, _) => InviteChangeShape(env, b, members, c);
    case WebhookChanges(_, _, _, _, _) => WebhookChangeShape(env, b, members, c);
    case EmojiChanges(_, _) => EmojiChangeShape(b, members, c);
    case _ =>
  }

  lemma GuildChangeShape(env: Env, b: EntryBody, members: seq<Member>, c: Change)
    requires b.GuildChanges?
    ensures ShapeKept(b, members, c, GuildChange(env, b, members, c))
  {
  }

  lemma ChannelChangeShape(b: EntryBody, members: seq<Member>, c: Change)
    requires b.ChannelChanges?
    ensures ShapeKept(b, members, c, Step(ChannelChange(b, c), members))
  {
  }

  lemma OverwriteChangeShape(b: EntryBody, members: seq<Member>, c: Change)
    requires b.OverwriteChanges?
    ensures ShapeKept(b, members, c, Step(OverwriteChange(b, c), members))
  {
  }

  lemma MemberChangeShape(env: Env, b: EntryBody, members: seq<Member>, c: Change)
    requires b.MemberChanges?
    ensures ShapeKept(b, members, c, Step(MemberChange(env, b, c), members))
  {
  }

  lemma RoleChangeShape(b: EntryBody, members: seq<Member>, c: Change)
    requires b.RoleChanges?
    ensures ShapeKept(b, members, c, Step(RoleChange(b, c), members))
  {
  }

  lemma InviteChangeShape(env: Env, b: EntryBody, members: seq<Member>, c: Change)
    requires b.InviteChanges?
    ensures ShapeKept(b, members, c, Step(InviteChange(env, b, c), members))
  {
  }

  lemma WebhookChangeShape(env: Env, b: EntryBody, members: seq<Member>, c: Change)
    requires b.WebhookChanges?
    ensures ShapeKept(b, members, c, Step(WebhookChange(env, b, c), members))
  {
  }

  lemma EmojiChangeShape(b: EntryBody, members: seq<Member>, c: Change)
    requires b.EmojiChanges?
    ensures ShapeKept(b, members, c, Step(EmojiChange(b, c), members))
  {
  }

  predicate SameKind(a: EntryBody, b: EntryBody) {
    && (a.GuildChanges? <==> b.GuildChanges?)
    && (a.ChannelChanges? <==> b.ChannelChanges?)
    && (a.OverwriteChanges? <==> b.OverwriteChanges?)
    && (a.KickEntry? <==> b.KickEntry?)
    && (a.PruneEntry? <==> b.PruneEntry?)
    && (a.BanEntry? <==> b.BanEntry?)
    && (a.MemberChanges? <==> b.MemberChanges?)
    && (a.RoleChanges? <==> b.RoleChanges?)
    && (a.InviteChanges? <==> b.InviteChanges?)
    && (a.WebhookChanges? <==> b.WebhookChanges?)
    && (a.EmojiChanges? <==> b.EmojiChanges?)
    && (a.MessageDeleteEntry? <==> b.MessageDeleteEntry?)
  }

  /** A parsed side is null exactly when the value is not a string holding an
      integer in range: a value of another type or a string with a character a
      number cannot contain gives null, and a rendered number gives itself. */
  lemma ParseUlongReads(v: Json)
    ensures AsString(v).None? ==> ParseUlong(v) == None
    ensures forall n: nat :: n <= UlongMax && v == JString(DecimalString(n)) ==> ParseUlong(v) == Some(n)
    ensures forall i :: v.JString? && 0 <= i < |v.s| && !IsNumberChar(v.s[i]) ==> ParseUlong(v) == None
  {
    forall n: nat | n <= UlongMax && v == JString(DecimalString(n)) ensures ParseUlong(v) == Some(n) {
      ParseDecimalRoundTrip(n, 0, UlongMax);
    }
    forall i | v.JString? && 0 <= i < |v.s| && !IsNumberChar(v.s[i]) ensures ParseUlong(v) == None {
      ParseRejectsForeignChars(v.s, 0, UlongMax, i);
    }
  }

  /** The same for `int.TryParse`. */
  lemma ParseIntReads(v: Json)
    ensures AsString(v).None? ==> ParseInt(v) == None
    ensures forall n: nat :: n <= IntMax && v == JString(DecimalString(n)) ==> ParseInt(v) == Some(n)
    ensures forall i :: v.JString? && 0 <= i < |v.s| && !IsNumberChar(v.s[i]) ==> ParseInt(v) == None
  {
    forall n: nat | n <= IntMax && v == JString(DecimalString(n)) ensures ParseInt(v) == Some(n) {
      ParseDecimalRoundTrip(n, IntMin, IntMax);
    }
    forall i | v.JString? && 0 <= i < |v.s| && !IsNumberChar(v.s[i]) ensures ParseInt(v) == None {
      ParseRejectsForeignChars(v.s, IntMin, IntMax, i);
    }
  }

  /** Parsed numeric changes never throw: a channel's type, an overwrite's
      target id and a role's colour are null on the side that does not parse. */
  lemma NumericChangesNeverThrow(env: Env, b: EntryBody, members: seq<Member>, c: Change)
    requires ToLower(c.key) in {"type", "id", "color"} && (b.ChannelChanges? || b.OverwriteChanges? || b.RoleChanges?)
    ensures var r := ApplyChange(env, b, members, c);
      && r.outcome.Ok?
      && (b.ChannelChanges? && ToLower(c.key) == "type" ==>
            r.outcome.value.channelType.Some?
            && (r.outcome.value.channelType.value.before.None? <==> ParseUlong(c.newValue).None?)
            && (r.outcome.value.channelType.value.after.None? <==> ParseUlong(c.oldValue).None?))
      && (b.OverwriteChanges? && ToLower(c.key) == "id" ==>
            r.outcome.value.overwriteTargetId == Some(PropertyChange(ParseUlong(c.oldValue), ParseUlong(c.newValue))))
      && (b.RoleChanges? && ToLower(c.key) == "color" ==>
            r.outcome.value.color == Some(PropertyChange(ParseInt(c.oldValue), ParseInt(c.newValue))))
  {
  }

  /** `deny`, `allow`, `max_age`, `uses` and `max_uses` parse the old value for
      both sides: the new value is never read and the two sides are equal. */
  lemma OldValueReadTwice(env: Env, b: EntryBody, members: seq<Member>, c: Change, v: Json)
    requires || (b.OverwriteChanges? && ToLower(c.key) in {"deny", "allow"})
             || (b.InviteChanges? && ToLower(c.key) in {"max_age", "uses", "max_uses"})
    ensures ApplyChange(env, b, members, c) == ApplyChange(env, b, members, c.(newValue := v))
    ensures var r := ApplyChange(env, b, members, c).outcome;
      && r.Ok?
      && (ToLower(c.key) == "deny" ==> r.value.deny.Some? && r.value.deny.value.before == r.value.deny.value.after)
      && (ToLower(c.key) == "allow" ==> r.value.allow.Some? && r.value.allow.value.before == r.value.allow.value.after)
      && (ToLower(c.key) == "max_age" ==> r.value.maxAge.Some? && r.value.maxAge.value.before == r.value.maxAge.value.after)
      && (ToLower(c.key) == "uses" ==> r.value.uses.Some? && r.value.uses.value.before == r.value.uses.value.after)
      && (ToLower(c.key) == "max_uses" ==> r.value.maxUses.Some? && r.value.maxUses.value.before == r.value.maxUses.value.after)
  {
    var c' := c.(newValue := v);
    assert ToLower(c'.key) == ToLower(c.key);
  }

  /** An icon change is decided by the old value alone: with no old hash both
      sides are null whatever the new value, and with one the new side is an
      address even when there is no new hash (an empty hash then). */
  lemma IconFollowsOldValue(env: Env, b: EntryBody, members: seq<Member>, c: Change, v: Json)
    requires b.GuildChanges? && ToLower(c.key) == "icon_hash"
    ensures var r := GuildChange(env, b, members, c);
      && r.outcome.Ok? && r.outcome.value.icon.Some? && r.members == members
      && (AsString(c.oldValue).None? ==>
            r.outcome.value.icon.value == PropertyChange(None, None)
            && r == GuildChange(env, b, members, c.(newValue := v)))
      && (AsString(c.oldValue).Some? ==> r.outcome.value.icon.value.after.Some?)
      && (AsString(c.oldValue).Some? && AsString(c.newValue).None? ==>
            r.outcome.value.icon.value.after == Some(IconAuditUrl(env.guildId, "")))
  {
    var c' := c.(newValue := v);
    assert ToLower(c'.key) == ToLower(c.key);
  }

  /** The AFK and widget channel changes fill Before from the new value and
      After from the old one: Before does not depend on the old value, and a
      channel found for it has the new value's id. */
  lemma ChannelSidesSwapped(env: Env, b: EntryBody, members: seq<Member>, c: Change, v: Json)
    requires b.GuildChanges? && ToLower(c.key) in {"afk_channel_id", "widget_channel_id"}
    ensures var r := GuildChange(env, b, members, c);
      var r' := GuildChange(env, b, members, c.(oldValue := v));
      && r.outcome.Ok? && r'.outcome.Ok?
      && (ToLower(c.key) == "afk_channel_id" ==>
            && r.outcome.value.afkChannel.Some? && r'.outcome.value.afkChannel.Some?
            && r.outcome.value.afkChannel.value.before == r'.outcome.value.afkChannel.value.before
            && (r.outcome.value.afkChannel.value.before.Some? ==>
                  r.outcome.value.afkChannel.value.before.value.id == UlongOrZero(c.newValue))
            && (r.outcome.value.afkChannel.value.after.Some? ==>
                  r.outcome.value.afkChannel.value.after.value.id == UlongOrZero(c.oldValue)))
      && (ToLower(c.key) == "widget_channel_id" ==>
            && r.outcome.value.embedChannel.Some? && r'.outcome.value.embedChannel.Some?
            && r.outcome.value.embedChannel.value.before == r'.outcome.value.embedChannel.value.before
            && (r.outcome.value.embedChannel.value.before.Some? ==>
                  r.outcome.value.embedChannel.value.before.value.id == UlongOrZero(c.newValue))
            && (r.outcome.value.embedChannel.value.after.Some? ==>
                  r.outcome.value.embedChannel.value.after.value.id == UlongOrZero(c.oldValue)))
  {
    var c' := c.(oldValue := v);
    assert ToLower(c'.key) == ToLower(c.key);
  }

  /** A channel's type change fills Before from the new value: Before does not
      depend on the old value. */
  lemma ChannelTypeBeforeFromNewValue(b: EntryBody, c: Change, v: Json)
    requires b.ChannelChanges? && ToLower(c.key) == "type"
    ensures var r := ChannelChange(b, c);
      var r' := ChannelChange(b, c.(oldValue := v));
      && r.Ok? && r'.Ok? && r.value.channelType.Some? && r'.value.channelType.Some?
      && r.value.channelType.value.before == r'.value.channelType.value.before
  {
    var c' := c.(oldValue := v);
    assert ToLower(c'.key) == ToLower(c.key);
  }

  /** `$add` and `$remove`: a value that is not an array throws; otherwise the
      list has one element per id, the guild's role with that id, or null
      exactly when the guild has no such role. */
  lemma RoleListShape(env: Env, v: Json)
    ensures ObjectsOf(v).None? <==> RolesOf(env, v) == Err(ArgumentNull)
    ensures ObjectsOf(v).Some? ==>
      var ids := ObjectsOf(v).value;
      var r := RolesOf(env, v);
      && r.Ok? && |r.value| == |ids|
      && forall i :: 0 <= i < |ids| ==>
           && (r.value[i].Some? ==> r.value[i].value in env.roles && r.value[i].value.id == ids[i].id)
           && (r.value[i].None? <==> ids[i].id !in Keys(env.roles, RoleId))
  {
    if ObjectsOf(v).Some? {
      var ids := ObjectsOf(v).value;
      forall i | 0 <= i < |ids| ensures FirstBy(env.roles, RoleId, ids[i].id).None? <==> ids[i].id !in Keys(env.roles, RoleId) {
        FirstByFinds(env.roles, RoleId, ids[i].id);
      }
    }
  }

  /** The platform answers a member request with a member of the requested id. */
  predicate HonestFetch(env: Env) {
    forall id :: env.fetchMember(id).Ok? ==> env.fetchMember(id).value.id == id
  }

  /** An owner change reads both ids (a value that is not a number throws), and
      resolves each to the snapshot's member or the cached or fetched one: the
      members have the ids read, and the member cache only ever gains members,
      at most one per side, keeping ids unique. */
  lemma OwnerResolves(env: Env, b: EntryBody, members: seq<Member>, c: Change)
    requires b.GuildChanges? && HonestFetch(env) && KeyedById(env.gms)
    ensures var r := OwnerChange(env, b, members, c);
      && members <= r.members && |r.members| <= |members| + 2
      && (DistinctBy(members, MemberId) ==> DistinctBy(r.members, MemberId))
      && (AsUlong(c.oldValue).Err? ==> r == Step(Err(Format), members))
      && (r.outcome.Ok? ==>
            && AsUlong(c.oldValue).Ok? && AsUlong(c.newValue).Ok?
            && r.outcome.value.owner.Some?
            && r.outcome.value.owner.value.before.id == AsUlong(c.oldValue).value
            && r.outcome.value.owner.value.after.id == AsUlong(c.newValue).value)
  {
    var o := AsUlong(c.oldValue);
    if o.Ok? {
      var before := ResolveOwner(env, members, o.value);
      ResolveOwnerGrows(env, members, o.value);
      if before.outcome.Ok? {
        var n := AsUlong(c.newValue);
        if n.Ok? {
          ResolveOwnerGrows(env, before.members, n.value);
        }
      }
    }
  }

  lemma ResolveOwnerGrows(env: Env, members: seq<Member>, id: Snowflake)
    requires HonestFetch(env) && KeyedById(env.gms)
    ensures var r := ResolveOwner(env, members, id);
      && members <= r.members && |r.members| <= |members| + 1
      && (DistinctBy(members, MemberId) ==> DistinctBy(r.members, MemberId))
      && (r.outcome.Ok? ==> r.outcome.value.id == id)
  {
    if id !in env.gms {
      GetMemberCachedOrAppended(members, id, env.fetchMember(id));
    }
  }

  predicate BoolOrNull(v: Json) {
    v.JNull? || v.JBool?
  }

  predicate IntegerOrNull(v: Json) {
    v.JNull? || v.JInteger?
  }

  /** The unboxing casts throw exactly when a side holds a value of another
      type; `verification_level` also throws on null. */
  lemma CastsThrow(env: Env, b: EntryBody, members: seq<Member>, c: Change)
    ensures var key := ToLower(c.key);
      var r := ApplyChange(env, b, members, c).outcome;
      && ((b.MemberChanges? && key in {"deaf", "mute"}) || (b.RoleChanges? && key == "mentionable")
            || (b.InviteChanges? && key == "temporary") ==>
            (r.Err? <==> !BoolOrNull(c.oldValue) || !BoolOrNull(c.newValue)))
      && (b.RoleChanges? && key in {"permissions", "position"} ==>
            (r.Err? <==> !IntegerOrNull(c.oldValue) || !IntegerOrNull(c.newValue)))
      && (b.GuildChanges? && key == "verification_level" ==>
            (r.Err? <==> !c.oldValue.JInteger? || !c.newValue.JInteger?))
  {
  }

  /** A webhook avatar change throws exactly when a side holds a hash and the
      webhook is unknown; otherwise each hash becomes an address under the
      webhook's id. */
  lemma AvatarNeedsTarget(env: Env, b: EntryBody, c: Change)
    requires b.WebhookChanges? && ToLower(c.key) == "avatar_hash"
    ensures var r := WebhookChange(env, b, c);
      && (r.Err? <==> b.webhookTarget.None? && (c.oldValue.JString? || c.newValue.JString?))
      && (r.Ok? && c.oldValue.JString? ==>
            r.value.avatar.Some? && r.value.avatar.value.before.Some?
            && r.value.avatar.value.before.value == AvatarAuditUrl(b.webhookTarget.value.id, c.oldValue.s))
  {
  }
}
