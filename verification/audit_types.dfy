/** The guild audit log's data: the raw records the platform returns, the
    cached entities they refer to, the resolved entries, and the classifier
    that sorts action types into Create, Delete, Update and Other. */
module AuditTypes {
  import opened Wrappers
  import opened Text

  // ---------------------------------------------------------------------
  // Cached entities (only the fields the audit log reads)

  datatype Member = Member(id: Snowflake, username: string, discriminator: string)
  datatype Role = Role(id: Snowflake, name: string, position: int)
  /** A deserialised permission overwrite; its fields are not interpreted here. */
  datatype Overwrite = Overwrite(id: Snowflake, payload: string)
  datatype Channel = Channel(id: Snowflake, name: string, channelType: int, overwrites: seq<Overwrite>)
  datatype Emoji = Emoji(id: Snowflake, name: string)
  datatype Webhook = Webhook(id: Snowflake, name: string, avatarHash: Option<string>,
                             channelId: Snowflake, guildId: Snowflake, token: string)
  datatype Message = Message(id: Snowflake, channelId: Snowflake, content: string)

  function MemberId(m: Member): Snowflake { m.id }
  function RoleId(r: Role): Snowflake { r.id }
  function OverwriteId(o: Overwrite): Snowflake { o.id }
  function ChannelId(c: Channel): Snowflake { c.id }
  function EmojiId(e: Emoji): Snowflake { e.id }
  function WebhookId(w: Webhook): Snowflake { w.id }

  // ---------------------------------------------------------------------
  // Raw audit-log records

  datatype ActionType =
    | GuildUpdate
    | ChannelCreate | ChannelUpdate | ChannelDelete
    | OverwriteCreate | OverwriteUpdate | OverwriteDelete
    | Kick | Prune | Ban | Unban
    | MemberUpdate | MemberRoleUpdate
    | RoleCreate | RoleUpdate | RoleDelete
    | InviteCreate | InviteUpdate | InviteDelete
    | WebhookCreate | WebhookUpdate | WebhookDelete
    | EmojiCreate | EmojiUpdate | EmojiDelete
    | MessageDelete
    | Unrecognized(code: int)   // any other value of the enum

  /** A user referenced by a page: what a placeholder member is built from. */
  datatype RawUser = RawUser(id: Snowflake, username: string, discriminator: string)

  function RawUserId(u: RawUser): Snowflake { u.id }

  /** A JSON object inside an array-valued change; `id` is its "id" member. */
  datatype JObject = JObject(id: Snowflake, payload: string)

  /** A dynamically typed change value as the JSON reader boxes it. */
  datatype Json = JNull | JString(s: string) | JInteger(n: int) | JBool(b: bool)
                | JArray(items: seq<JObject>) | JOther

  datatype Change = Change(key: string, oldValue: Json, newValue: Json)

  /** The entry's "options" blob. */
  datatype AuditOptions = AuditOptions(id: Snowflake, deleteMemberDays: int,
                                       membersRemoved: int, messageCount: int)

  datatype RawEntry = RawEntry(id: Snowflake, actionType: ActionType, targetId: Option<Snowflake>,
                               options: Option<AuditOptions>, changes: seq<Change>,
                               userId: Snowflake, reason: Option<string>)

  function RawEntryKey(e: RawEntry): int { e.id }

  /** One response of the audit-log endpoint. */
  datatype AuditLogPage = AuditLogPage(users: seq<RawUser>, webhooks: seq<Webhook>, entries: seq<RawEntry>)

  // ---------------------------------------------------------------------
  // Reading a change value (the change record's typed accessors)

  /** `OldValueString`: the value when it is a string, null otherwise. */
  function AsString(v: Json): Option<string> {
    if v.JString? then Some(v.s) else None
  }

  /** `OldValueUlong`: the string value read as a `ulong`. */
  function AsUlong(v: Json): Result<Snowflake> {
    var p := ParseInteger(AsString(v), 0, UlongMax);
    if p.Some? then Ok(p.value) else Err(Format)
  }

  /** `(long)xc.OldValue`: unboxing, which throws on null and on any other type. */
  function UnboxLong(v: Json): Result<int> {
    match v
    case JInteger(n) => Ok(n)
    case JNull => Err(NullReference)
    case _ => Err(InvalidCast)
  }

  /** `xc.OldValue != null ? (T?)(long)xc.OldValue : null`. */
  function UnboxLongOrNull(v: Json): Result<Option<int>> {
    if v.JNull? then Ok(None)
    else
      var n :- UnboxLong(v);
      Ok(Some(n))
  }

  /** `xc.OldValue != null ? (bool?)xc.OldValue : null`. */
  function UnboxBoolOrNull(v: Json): Result<Option<bool>> {
    match v
    case JNull => Ok(None)
    case JBool(b) => Ok(Some(b))
    case _ => Err(InvalidCast)
  }

  /** `OldValues`: the objects of an array value, null for any other value. */
  function ObjectsOf(v: Json): Option<seq<JObject>> {
    if v.JArray? then Some(v.items) else None
  }

  // ---------------------------------------------------------------------
  // Resolved entries

  datatype PropertyChange<T> = PropertyChange(before: T, after: T)

  /** A change property of an entry: null until its key is seen. */
  type Pc<T> = Option<PropertyChange<T>>

  /** The channel of a synthetic invite; a `channelType` of None is `ChannelType.Unknown`. */
  datatype InviteChannel = InviteChannel(id: Snowflake, name: Option<string>, channelType: Option<int>)

  /** The invite an invite entry reconstructs from its changes. */
  datatype Invite = Invite(guildId: Snowflake, guildName: Option<string>, guildSplash: Option<string>,
                           code: Option<string>, channel: Option<InviteChannel>)

  datatype MessageRef = CachedMessage(message: Message) | MessagePlaceholder(messageId: Snowflake)

  /** The thirteen entry shapes, each with the properties its action family carries. */
  datatype EntryBody =
    | GuildChanges(name: Pc<Option<string>>, owner: Pc<Member>, icon: Pc<Option<string>>,
                   verificationLevel: Pc<int>, afkChannel: Pc<Option<Channel>>,
                   embedChannel: Pc<Option<Channel>>, splash: Pc<Option<string>>)
    | ChannelChanges(channelTarget: Option<Channel>, channelName: Pc<Option<string>>,
                     channelType: Pc<Option<int>>, overwrites: Pc<Option<seq<Overwrite>>>,
                     topic: Pc<Option<string>>)
    | OverwriteChanges(overwriteTarget: Option<Overwrite>, overwriteChannel: Option<Channel>,
                       deny: Pc<Option<int>>, allow: Pc<Option<int>>,
                       overwriteType: Pc<Option<string>>, overwriteTargetId: Pc<Option<Snowflake>>)
    | KickEntry(kicked: Option<Member>)
    | PruneEntry(days: int, toll: int)
    | BanEntry(banned: Option<Member>)
    | MemberChanges(memberTarget: Option<Member>, nickname: Pc<Option<string>>,
                    deaf: Pc<Option<bool>>, mute: Pc<Option<bool>>,
                    addedRoles: Option<seq<Option<Role>>>, removedRoles: Option<seq<Option<Role>>>)
    | RoleChanges(roleTarget: Option<Role>, roleName: Pc<Option<string>>, color: Pc<Option<int>>,
                  permissions: Pc<Option<int>>, position: Pc<Option<int>>, mentionable: Pc<Option<bool>>)
    | InviteChanges(invite: Invite, maxAge: Pc<Option<int>>, code: Pc<Option<string>>,
                    temporary: Pc<Option<bool>>, inviter: Pc<Option<Member>>,
                    inviteChannel: Pc<Option<Channel>>, uses: Pc<Option<int>>, maxUses: Pc<Option<int>>)
    | WebhookChanges(webhookTarget: Option<Webhook>, webhookName: Pc<Option<string>>,
                     webhookChannel: Pc<Option<Channel>>, webhookType: Pc<Option<int>>,
                     avatar: Pc<Option<string>>)
    | EmojiChanges(emojiTarget: Option<Emoji>, emojiName: Pc<Option<string>>)
    | MessageDeleteEntry(messageChannel: Option<Channel>, messageCount: Option<int>,
                         message: Option<MessageRef>)

  datatype AuditEntry = AuditEntry(id: Snowflake, actionType: ActionType, category: Category,
                                   reason: Option<string>, userResponsible: Member, body: EntryBody)

  function EntryKey(e: AuditEntry): int { e.id }

  // ---------------------------------------------------------------------
  // The category classifier

  datatype Category = Create | Delete | Update | Other

  /** The summary category of an action type. */
  function CategoryOf(a: ActionType): Category {
    match a
    case ChannelCreate | EmojiCreate | InviteCreate | OverwriteCreate | RoleCreate | WebhookCreate =>
      Create
    case ChannelDelete | EmojiDelete | InviteDelete | MessageDelete | OverwriteDelete | RoleDelete
      | WebhookDelete =>
      Delete
    case ChannelUpdate | EmojiUpdate | InviteUpdate | MemberRoleUpdate | MemberUpdate
      | OverwriteUpdate | RoleUpdate | WebhookUpdate =>
      Update
    case _ => Other
  }

  /** What an action does to the thing it names, read off the action's name. */
  datatype Verb = Creates | Updates | Deletes | Acts

  function VerbOf(a: ActionType): Verb {
    match a
    case ChannelCreate | OverwriteCreate | RoleCreate | InviteCreate | WebhookCreate | EmojiCreate =>
      Creates
    case GuildUpdate | ChannelUpdate | OverwriteUpdate | MemberUpdate | MemberRoleUpdate
      | RoleUpdate | InviteUpdate | WebhookUpdate | EmojiUpdate =>
      Updates
    case ChannelDelete | OverwriteDelete | RoleDelete | InviteDelete | WebhookDelete
      | EmojiDelete | MessageDelete =>
      Deletes
    case Kick | Prune | Ban | Unban | Unrecognized(_) => Acts
  }

  /** The action types the dispatcher builds an entry for. */
  predicate Recognized(a: ActionType) {
    !a.Unrecognized?
  }

  /** The category is the action's verb, except that a guild update counts as Other. */
  lemma CategoryFollowsVerb(a: ActionType)
    ensures CategoryOf(a) == Create <==> VerbOf(a) == Creates
    ensures CategoryOf(a) == Delete <==> VerbOf(a) == Deletes
    ensures CategoryOf(a) == Update <==> VerbOf(a) == Updates && a != GuildUpdate
    ensures CategoryOf(a) == Other <==> VerbOf(a) == Acts || a == GuildUpdate
  {
  }
}
