# Guild audit log, member cache, command registration and thread rules

This project models the logic at the core of a .NET client library for the
Discord chat platform:

- **The guild** (`DSharpPlus/Entities/DiscordGuild.cs`), a class whose member
  cache is updated in place:
  - `GetAuditLogsAsync` fetches audit-log pages with a cursor and a limit.
    It resolves the users and webhooks the pages refer to. It then turns every
    raw entry, newest first, into a typed entry by action type, reading each
    change record and classifying the entry as Create, Delete, Update or Other.
  - `GetMemberAsync` and `GetAllMembersAsync` read and reconcile the member
    cache.
  - `UpdateRolePositionAsync` builds the role-reorder payload in an array.
  - The icon and splash address getters, and equality by id.
- **Command registration** (`DisCatSharp.ApplicationCommands/Workers/RegistrationWorker.cs`):
  - It partitions the locally declared application commands against the
    registered ones by name into a create list, an overwrite map and a
    delete list.
  - It picks one of three registration strategies.
  - It appends what the platform answers to the caller's command list.
  - It deletes stale commands, logging a 404 instead of failing.
- **Threads** (`DisCatSharp/Entities/ThreadAndForum/DiscordThreadChannel.cs`):
  - The guard in front of a thread modification.
  - The tag lists sent when a forum tag is added or removed.
  - The applied-tag lookup, the "try" member fetch and the display string.
- **The booster check** (`DisCatSharp.CommandsNext/Attributes/RequireBoostingAttribute.cs`).
- **Directory entry equality** (`DisCatSharp/Entities/Channel/DiscordGuildDirectoryEntry.cs`).

Layout:

| File | Module | Contents |
|---|---|---|
| `wrappers.dfy` | `Wrappers` | `Option`, `Result` and the exceptions the code raises or catches |
| `text.dfy` | `Text` | The .NET conversions the code relies on. Listed below. |
| `collections.dfy` | `Collections` | Generic LINQ-style pieces. Listed below. |
| `cdn.dfy` | `Cdn` | CDN image addresses |
| `audit_types.dfy` | `AuditTypes` | Audit-log datatypes and the category classifier |
| `audit_paging.dfy` | `AuditPaging` | The page fetch loop |
| `audit_refs.dfy` | `AuditRefs` | Resolution of the referenced users and webhooks |
| `audit_changes.dfy` | `AuditChanges` | The entry each action type starts from, and every change record |
| `audit_dispatch.dfy` | `AuditDispatch` | The entry loop, and the whole audit call as one function |
| `member_cache.dfy` | `MemberCache` | Specifications of the member-cache operations |
| `guild.dfy` | `Guilds` | The `Guild` class with its cache-changing methods, the reorder payload, addresses and equality |
| `registration.dfy` | `Registration` | List builders, strategies, and the registration of a command list |
| `thread_channel.dfy` | `Threads` | Thread rules |
| `require_boosting.dfy` | `Boosting` | The booster check |
| `directory_entry.dfy` | `Directory` | Directory entry equality |

- `text.dfy` covers decimal formatting and `TryParse`, white space,
  `ToLowerInvariant`, integer wrap-around and `UInt64.GetHashCode`.
- `collections.dfy` covers `FirstOrDefault`, `GroupBy(...).First()`,
  `ToDictionary` and a stable `OrderByDescending`.

Every loop in the source is a method with a `while` or `for` loop.
Each such method is proved equal to a recursive specification function, and
the lemmas state what the source promises about that function:
- the audit page loop, the entry loop and the change loop;
- the member-cache loops;
- the payload array;
- the registration builders and the call sequence.

Platform calls are parameters of the model. They include:
- the pages served for audit logs and members;
- the webhook list;
- single-member fetches;
- the message cache;
- the answers to registration calls.

## Model

| member | source | states |
|---|---|---|
| AuditPaging.FetchPages | DSharpPlus/Entities/DiscordGuild.cs:634-651 | The paging loop produces exactly the requests and kept pages of the recursive fetch specification `FetchAll`. |
| AuditPaging.FetchRequestSizes | DSharpPlus/Entities/DiscordGuild.cs:639-643 | Request i asks for `min(100, limit - entries fetched before it)`, or 100 without a limit. That is always between 1 and 100, and every request carries the member and action filters. |
| AuditPaging.FetchStops | DSharpPlus/Entities/DiscordGuild.cs:637-645 | A request is issued after the last kept page exactly when the quota is not exhausted, and in that case the page it returned was empty. |
| AuditPaging.FetchKeepsServedPages | DSharpPlus/Entities/DiscordGuild.cs:644-650 | The kept pages are the served pages in order, each non-empty. There is one request per kept page, plus at most one. |
| AuditPaging.FetchCursors | DSharpPlus/Entities/DiscordGuild.cs:643-648 | The first request has no cursor. Every later one continues from the id of the last entry of the page before it. |
| AuditPaging.NoLimitFetchesUntilEmpty | DSharpPlus/Entities/DiscordGuild.cs:637-650 | Without a limit, paging keeps every page up to the first empty one (a short page does not stop it) and ends with one request that returns nothing. |
| AuditPaging.LimitCapsRequests | DSharpPlus/Entities/DiscordGuild.cs:639-641 | With a limit, no request asks for more than the limit minus what has been fetched, and none asks for zero or fewer. |
| AuditRefs.UserDirectoryResolves | DSharpPlus/Entities/DiscordGuild.cs:653-662 | The user directory holds each referenced id once, resolved from the first occurrence: the cached member if there is one, otherwise a placeholder with the raw username, discriminator and id. |
| AuditRefs.WebhooksRequestedIffReferenced | DSharpPlus/Entities/DiscordGuild.cs:664-666 | The webhook list is fetched exactly when some webhook is referenced. Otherwise the webhook directory stays null. |
| AuditRefs.WebhookDirectoryResolves | DSharpPlus/Entities/DiscordGuild.cs:657-672 | Each referenced webhook id maps to the fetched webhook with that id if there is one, and otherwise to its first reference. |
| AuditRefs.WebhookDirectoryRejectsDuplicates | DSharpPlus/Entities/DiscordGuild.cs:667-668 | A fetched webhook list with a repeated id makes `ToDictionary` throw. |
| AuditTypes.CategoryFollowsVerb | DSharpPlus/Entities/DiscordGuild.cs:1256-1291 | The category is total. Creates map to Create, deletes (with MessageDelete) to Delete, and updates (with the member updates) to Update. GuildUpdate, Kick, Prune, Ban and Unban map to Other. |
| AuditChanges.InitialBodyFits | DSharpPlus/Entities/DiscordGuild.cs:682-1254 | An unrecognised action type yields no entry and no error. Every recognised one starts the entry kind that its action family calls for. |
| AuditChanges.MissingTargetThrows | DSharpPlus/Entities/DiscordGuild.cs:769-1240 | Without a target id, exactly the families that read `TargetId.Value` throw. |
| AuditChanges.NullOptionsThrow | DSharpPlus/Entities/DiscordGuild.cs:832-1148 | With a target, building the entry throws a null reference in three cases: a Prune with no options, a webhook entry when no webhook was referenced, and an overwrite entry whose channel has overwrites but no options. |
| AuditChanges.DeletedMessageResolves | DSharpPlus/Entities/DiscordGuild.cs:1229-1245 | A message-delete entry with a known channel targets the first cached message with that id in that channel when the client has a message cache holding one. It gets a placeholder carrying the target id exactly when there is no message cache or no cached message matches. |
| AuditChanges.FirstWithTarget | DSharpPlus/Entities/DiscordGuild.cs:769 | A lookup by `TargetId.Value` throws only on a non-empty collection with no target. Otherwise it gives the first element with the target id. |
| AuditChanges.Overwrites | DSharpPlus/Entities/DiscordGuild.cs:796-808 | A null overwrite list stays null. Otherwise there is one overwrite per JSON object, with its id. |
| AuditChanges.CachedMessageFor | DSharpPlus/Entities/DiscordGuild.cs:1240 | Nothing is found exactly when no cached message has the target id in the entry's channel. Otherwise the earliest such message is found. |
| AuditChanges.ChangeKeepsShape | DSharpPlus/Entities/DiscordGuild.cs:691-1225 | Every change record keeps the entry's kind. A key the entry's family does not know leaves the entry and the member cache unchanged. Only the keys that cast, parse or dereference can throw, and only `owner_id` touches the member cache. |
| AuditChanges.GuildChangeShape | DSharpPlus/Entities/DiscordGuild.cs:691-760 | The same, for a guild-update change record. |
| AuditChanges.ChannelChangeShape | DSharpPlus/Entities/DiscordGuild.cs:773-823 | The same, for a channel change record. |
| AuditChanges.OverwriteChangeShape | DSharpPlus/Entities/DiscordGuild.cs:837-885 | The same, for an overwrite change record. |
| AuditChanges.MemberChangeShape | DSharpPlus/Entities/DiscordGuild.cs:920-959 | The same, for a member change record. |
| AuditChanges.RoleChangeShape | DSharpPlus/Entities/DiscordGuild.cs:972-1026 | The same, for a role change record. |
| AuditChanges.InviteChangeShape | DSharpPlus/Entities/DiscordGuild.cs:1047-1139 | The same, for an invite change record. |
| AuditChanges.WebhookChangeShape | DSharpPlus/Entities/DiscordGuild.cs:1152-1197 | The same, for a webhook change record. |
| AuditChanges.EmojiChangeShape | DSharpPlus/Entities/DiscordGuild.cs:1210-1225 | The same, for an emoji change record. |
| AuditDispatch.ChangeGrowsCache | DSharpPlus/Entities/DiscordGuild.cs:703-709 | A change record only appends to the member cache. A cache without repeated ids keeps none. |
| AuditChanges.ParseUlongReads | DSharpPlus/Entities/DiscordGuild.cs:728-873 | A non-string value parses to null, a rendered number parses back to itself, and a string with a foreign character parses to null. |
| AuditChanges.ParseIntReads | DSharpPlus/Entities/DiscordGuild.cs:985-986 | The same for the 32-bit parse used by the role colour. |
| AuditChanges.NumericChangesNeverThrow | DSharpPlus/Entities/DiscordGuild.cs:785-993 | Channel type, overwrite id and role colour never throw: an unparsable side is null. The channel type's Before is parsed from the new value and its After from the old value. |
| AuditChanges.OldValueReadTwice | DSharpPlus/Entities/DiscordGuild.cs:841-1132 | `deny`, `allow`, `max_age`, `uses` and `max_uses` read the old value for both sides. Before equals After, and the new value is ignored. |
| AuditChanges.IconFollowsOldValue | DSharpPlus/Entities/DiscordGuild.cs:711-717 | Both sides of the icon change are guarded by the old value. A null old value gives null on both sides whatever the new value. |
| AuditChanges.ChannelSidesSwapped | DSharpPlus/Entities/DiscordGuild.cs:727-747 | The AFK and widget channel changes fill Before from the new value and After from the old one. |
| AuditChanges.ChannelTypeBeforeFromNewValue | DSharpPlus/Entities/DiscordGuild.cs:785-793 | The channel type's Before does not depend on the old value. |
| AuditChanges.RoleListShape | DSharpPlus/Entities/DiscordGuild.cs:948-954 | `$add`/`$remove` throw on a null list. Otherwise they give one element per id: the cached role with that id, or null when none is cached. |
| AuditChanges.OwnerResolves | DSharpPlus/Entities/DiscordGuild.cs:703-709 | Assume every member fetch answers with the requested id and the member dictionary is keyed by id. Then the owner change resolves each side from the member dictionary or fetches it, appending each fetched member to the cache. The cache grows by at most two and stays free of repeats. A non-numeric old value throws. |
| AuditChanges.ResolveOwnerGrows | DSharpPlus/Entities/DiscordGuild.cs:703-709 | Resolving one owner side yields the member with that id and appends at most one member. |
| AuditChanges.CastsThrow | DSharpPlus/Entities/DiscordGuild.cs:719-1078 | Boolean and integer casts throw exactly when a side is neither null nor of the cast type. The verification level throws on any non-integer. |
| AuditChanges.AvatarNeedsTarget | DSharpPlus/Entities/DiscordGuild.cs:1186-1192 | A webhook avatar change throws exactly when the entry has no webhook target and a side is a string. Otherwise Before is the address built from the target's id. |
| AuditDispatch.BuildEntry | DSharpPlus/Entities/DiscordGuild.cs:678-1297 | Building one entry (dispatch, change loop, finishing assignments) gives exactly the entry and cache of the specification `DispatchEntry`. |
| AuditDispatch.ApplyEach | DSharpPlus/Entities/DiscordGuild.cs:690-760 | The loop over an entry's changes gives exactly `ApplyChanges`, stopping at the first exception. |
| AuditDispatch.DispatchAllSummarises | DSharpPlus/Entities/DiscordGuild.cs:1248-1297 | There is one entry per raw entry with a recognised type, in order. Each carries its raw entry's id, action type, category, reason and responsible user. |
| AuditDispatch.DispatchAllOrdered | DSharpPlus/Entities/DiscordGuild.cs:674-1297 | The output is no longer than the input. Each entry keeps the id of a raw entry, and a descending (strictly descending) input gives a descending (strictly descending) output. |
| AuditDispatch.KeptDescending | DSharpPlus/Entities/DiscordGuild.cs:1251-1252 | Skipping entries keeps the rest in their order. |
| AuditDispatch.OrderedEntries | DSharpPlus/Entities/DiscordGuild.cs:674 | The raw entries of all kept pages, sorted by descending id. The result is a reordering of exactly those entries, and strictly descending when the ids are distinct. |
| AuditDispatch.ApplyChangesKeepKind | DSharpPlus/Entities/DiscordGuild.cs:690-760 | A run of change records never changes the entry's kind. |
| AuditDispatch.DispatchAllGrowsCache | DSharpPlus/Entities/DiscordGuild.cs:703-709 | Dispatching entries only appends to the member cache, and a cache without repeated ids keeps none. |
| AuditDispatch.DuplicateMembersThrowFirst | DSharpPlus/Entities/DiscordGuild.cs:632 | A member cache with a repeated id makes the call throw before any request is made. |
| AuditDispatch.AuditLogsRequests | DSharpPlus/Entities/DiscordGuild.cs:632-666 | The requests made are exactly those of the paging loop. The webhook list is requested exactly when the kept pages refer to a webhook. |
| AuditDispatch.AuditLogsEntries | DSharpPlus/Entities/DiscordGuild.cs:674-1299 | The entries follow the recognised raw entries of the kept pages in descending id order, carrying their id, action type, category and reason. There are no more of them than raw entries. |
| AuditDispatch.AuditLogsGrowCache | DSharpPlus/Entities/DiscordGuild.cs:630-1302 | When every member fetch answers with the requested id, the audit call only appends fetched members to the guild's cache and keeps it free of repeated ids. |
| MemberCache.GetMemberCachedOrAppended | DSharpPlus/Entities/DiscordGuild.cs:456-465 | A cached id returns the cached member and leaves the cache unchanged. Otherwise the fetched member is returned and appended exactly once, and a failed fetch changes nothing. |
| MemberCache.MemberFetchReceives | DSharpPlus/Entities/DiscordGuild.cs:473-490 | The received members are the served pages concatenated in order. |
| MemberCache.MemberFetchStops | DSharpPlus/Entities/DiscordGuild.cs:476-478 | Every page but the last had exactly 1000 members, and the last had a different count. |
| MemberCache.MemberFetchCursors | DSharpPlus/Entities/DiscordGuild.cs:477-487 | The first request has no cursor. Each later one continues after the last member of the previous page. |
| MemberCache.FirstByRetain | DSharpPlus/Entities/DiscordGuild.cs:494-497 | Removing the members that were not received keeps exactly the cached members whose id was received. |
| MemberCache.FirstByAppendAbsent | DSharpPlus/Entities/DiscordGuild.cs:499-505 | Adding the received members whose id is absent keeps every cached member and adds the first received member of each new id. |
| MemberCache.RetainDistinct | DSharpPlus/Entities/DiscordGuild.cs:494-497 | Removal keeps a cache free of repeated ids. |
| MemberCache.AppendAbsentDistinct | DSharpPlus/Entities/DiscordGuild.cs:499-505 | Adding absent ids keeps the cache free of repeated ids. |
| MemberCache.ReconcileKeepsReceived | DSharpPlus/Entities/DiscordGuild.cs:492-506 | After reconciliation the cache's ids are exactly the received ids, each once. An id already cached keeps its cached member, and a new id holds the first member received with it. |
| Guilds.Guild.GetMember | DSharpPlus/Entities/DiscordGuild.cs:456-465 | The method's result and cache are those of `GetMemberSpec`. The cache only grows, and when the fetch answers with the requested member it stays free of repeated ids. |
| Guilds.Guild.GetAllMembers | DSharpPlus/Entities/DiscordGuild.cs:471-508 | The requests and received members are those of the paging specification. The cache becomes the reconciled cache, `MemberCount` equals its size, and it stays free of repeats. |
| Guilds.Guild.ListMembers | DSharpPlus/Entities/DiscordGuild.cs:473-490 | The paging loop gives exactly the cursors and members of `MemberFetchFrom`. |
| Guilds.Guild.RemoveNotReceived | DSharpPlus/Entities/DiscordGuild.cs:494-497 | The `RemoveAt(i--)` loop leaves exactly `Retain` of the old cache. |
| Guilds.Guild.AddAbsent | DSharpPlus/Entities/DiscordGuild.cs:499-505 | The lazy `AddRange` leaves exactly `AppendAbsent` of the cache and the received members. |
| Guilds.Guild.GetAuditLogs | DSharpPlus/Entities/DiscordGuild.cs:630-1302 | The requests, the webhook request, the entries or exception, and the new cache are those of the specification `AuditLogs` on the guild's old state. When every member fetch answers with the requested member, the cache only grows and stays free of repeated ids. |
| Guilds.Guild.DispatchEntries | DSharpPlus/Entities/DiscordGuild.cs:676-1299 | The entry loop gives exactly the entries and cache of `DispatchAll`. With honest member fetches, the cache only grows and stays free of repeated ids. |
| Guilds.Guild.RolePositionPayload | DSharpPlus/Entities/DiscordGuild.cs:550-560 | The array filled in the loop is a fresh array holding exactly the reorder payload. |
| Guilds.ReorderedRolesOrder | DSharpPlus/Entities/DiscordGuild.cs:550 | The payload's roles are a reordering of the roles other than @everyone, in descending position. |
| Guilds.OtherRolesCount | DSharpPlus/Entities/DiscordGuild.cs:550 | @everyone, whose id is the guild's, is dropped. Every other role keeps its number of occurrences. |
| Guilds.PayloadPositions | DSharpPlus/Entities/DiscordGuild.cs:555-559 | The target gets the requested position. Another role at or below it moves down one (wrapping at `int.MinValue`), and the rest keep their position. |
| Guilds.ReorderPayloadShape | DSharpPlus/Entities/DiscordGuild.cs:550-560 | One element per role other than @everyone, each with that role's id, in the sorted order. |
| Guilds.Guild.IconUrl | DSharpPlus/Entities/DiscordGuild.cs:35 | The address exists exactly when the hash is not null or white space, and names the icon folder, the id and the hash with `.jpg`. |
| Guilds.Guild.SplashUrl | DSharpPlus/Entities/DiscordGuild.cs:47 | The same for the splash folder. |
| Guilds.IconUrlIdentifies | DSharpPlus/Entities/DiscordGuild.cs:35 | Equal icon addresses come from equal ids and hashes. |
| Guilds.SplashUrlIdentifies | DSharpPlus/Entities/DiscordGuild.cs:47 | Equal splash addresses come from equal ids and hashes. |
| Guilds.IconIsNotSplash | DSharpPlus/Entities/DiscordGuild.cs:35-47 | An icon address is never a splash address. |
| Guilds.OpEqEquivalence | DSharpPlus/Entities/DiscordGuild.cs:1384-1406 | `==` is an equivalence: null equals only null, and two guilds are equal exactly when their ids are. `!=` is its negation. |
| Guilds.EqualsAgrees | DSharpPlus/Entities/DiscordGuild.cs:1350-1378 | `Equals` agrees with `==`. A non-guild object is never equal, and equal guilds have equal hash codes. |
| Cdn.CdnUrlInjective | DSharpPlus/Entities/DiscordGuild.cs:35-47 | An address determines its id and hash. |
| Registration.NewCommands | DisCatSharp.ApplicationCommands/Workers/RegistrationWorker.cs:321-331 | The loop gives exactly the update commands whose name no remote command has, in order. |
| Registration.UpdateCommands | DisCatSharp.ApplicationCommands/Workers/RegistrationWorker.cs:341-353 | The loop gives exactly the overwrite map of `EditsFor`, in insertion order, or the duplicate-key exception. |
| Registration.InvalidCommandIds | DisCatSharp.ApplicationCommands/Workers/RegistrationWorker.cs:280-308 | The loops give exactly the remote ids with no local command of that name, or every remote id when there is no local list. |
| Registration.BuildGlobalCreateList | DisCatSharp.ApplicationCommands/Workers/RegistrationWorker.cs:315-332 | The input is unchanged with no remote commands or no input. Otherwise the result is exactly the unmatched commands. |
| Registration.BuildGlobalOverwriteList | DisCatSharp.ApplicationCommands/Workers/RegistrationWorker.cs:335-358 | The result is null with no remote commands or no input. Otherwise it is the map from the first same-named remote id to each matched command. |
| Registration.BuildGlobalDeleteList | DisCatSharp.ApplicationCommands/Workers/RegistrationWorker.cs:274-313 | The result is null with no remote commands, and otherwise the stale remote ids. |
| Registration.BuildGuildCreateList | DisCatSharp.ApplicationCommands/Workers/RegistrationWorker.cs:230-248 | The same as the global create list, after looking the guild up with `First()`, which throws when the guild is absent. |
| Registration.BuildGuildOverwriteList | DisCatSharp.ApplicationCommands/Workers/RegistrationWorker.cs:250-272 | The same as the global overwrite list, and null when the registry has no entry for the guild. |
| Registration.BuildGuildDeleteList | DisCatSharp.ApplicationCommands/Workers/RegistrationWorker.cs:189-228 | The same as the global delete list, with `First()` throwing when the guild is absent. |
| Registration.CreateOverwritePartition | DisCatSharp.ApplicationCommands/Workers/RegistrationWorker.cs:323-351 | Every local command lands in exactly one of the create list and the overwrite map's values. |
| Registration.EditsForShape | DisCatSharp.ApplicationCommands/Workers/RegistrationWorker.cs:345-351 | Each overwrite maps the first same-named remote id to a local command. Keys and names never repeat. |
| Registration.SharedNameThrows | DisCatSharp.ApplicationCommands/Workers/RegistrationWorker.cs:349 | Two local commands sharing a registered name make `Dictionary.Add` throw. |
| Registration.EditsForHas | DisCatSharp.ApplicationCommands/Workers/RegistrationWorker.cs:347-349 | Every local command with a registered name gets an overwrite under that name's first remote id. |
| Registration.StaleIdsExact | DisCatSharp.ApplicationCommands/Workers/RegistrationWorker.cs:280-308 | The delete list holds exactly the ids of remote commands with no local command of that name, and all remote ids when there is no local list. |
| Registration.NothingRegistered | DisCatSharp.ApplicationCommands/Workers/RegistrationWorker.cs:276-338 | With no remote commands, the input is created as is, and nothing is overwritten or deleted. |
| Registration.NoLocalListDeletesAll | DisCatSharp.ApplicationCommands/Workers/RegistrationWorker.cs:278-338 | With remote commands and no local list, every remote command is deleted. |
| Registration.AbsentGuildThrows | DisCatSharp.ApplicationCommands/Workers/RegistrationWorker.cs:195-252 | For a guild missing from a non-empty registry, the overwrite list is null and the create and delete builders throw. |
| Registration.AssignIdsSetsKeys | DisCatSharp.ApplicationCommands/Workers/RegistrationWorker.cs:51-56 | Setting each overwritten command's `Id` to its map key changes only the commands with a matched name, and sets exactly their ids. |
| Registration.RegisterAnswered | DisCatSharp.ApplicationCommands/Workers/RegistrationWorker.cs:37-102 | When every call is answered, the calls are the planned strategy followed by the deletes. Deletes answered with 404 are logged, the command list gains the backend's answers, and the result is the list when it is non-empty, otherwise null. |
| Registration.RunPlanned | DisCatSharp.ApplicationCommands/Workers/RegistrationWorker.cs:43-99 | The strategy and then the delete stage make exactly the planned calls, with nothing failing. |
| Registration.StrategyAnswered | DisCatSharp.ApplicationCommands/Workers/RegistrationWorker.cs:43-84 | Creates only: one bulk overwrite. Overwrites only: ids set, then one bulk overwrite. Both: each create, then each edit. |
| Registration.RegisterAfterStrategy | DisCatSharp.ApplicationCommands/Workers/RegistrationWorker.cs:86-101 | The delete stage runs after a successful strategy, and the result is decided by whether the list is non-empty. |
| Registration.RunAnswered | DisCatSharp.ApplicationCommands/Workers/RegistrationWorker.cs:86-99 | A run of answered calls appends each answer in order and logs every delete answered with 404. |
| Registration.RunConcat | DisCatSharp.ApplicationCommands/Workers/RegistrationWorker.cs:62-84 | Running two stages in turn is running their concatenation. |
| Registration.Perform | DisCatSharp.ApplicationCommands/Workers/RegistrationWorker.cs:45-98 | One platform call as a method: the caller's list gains the answer, a 404 on delete is logged, and any other exception stops the run. |
| Registration.RunCalls | DisCatSharp.ApplicationCommands/Workers/RegistrationWorker.cs:62-99 | The call loop gives exactly `Run`. |
| Registration.RegisterLists | DisCatSharp.ApplicationCommands/Workers/RegistrationWorker.cs:43-101 | The branch selection and the calls give exactly `Register`. The returned list is the caller's own list or null. |
| Registration.RegisterGlobalCommands | DisCatSharp.ApplicationCommands/Workers/RegistrationWorker.cs:37-102 | Builds the three global lists, then registers as `Register` says. |
| Registration.RegisterGuildCommands | DisCatSharp.ApplicationCommands/Workers/RegistrationWorker.cs:104-169 | Builds the three guild lists, then registers as `Register` says. |
| Registration.FirstNamedIsFirst | DisCatSharp.ApplicationCommands/Workers/RegistrationWorker.cs:349 | `Where(...).First()` picks the earliest remote command with the name. |
| Threads.Modify | DisCatSharp/Entities/ThreadAndForum/DiscordThreadChannel.cs:126-137 | With `Invitable` set, the edit proceeds iff the guild can create private threads. Without it, the edit proceeds iff no non-null duration is set or the tier check passes. A blocked edit throws NotSupported naming tier "one" for three days and "two" otherwise, or InvalidOperation when no duration is set. |
| Threads.InvitableOverridesDuration | DisCatSharp/Entities/ThreadAndForum/DiscordThreadChannel.cs:131-135 | With `Invitable` set, the duration and the tier check do not affect the outcome. |
| Threads.BlockedWithoutInvitable | DisCatSharp/Entities/ThreadAndForum/DiscordThreadChannel.cs:131-136 | Without `Invitable`, only a disallowed duration blocks, and the exception is then NotSupported. |
| Threads.PlainEditProceeds | DisCatSharp/Entities/ThreadAndForum/DiscordThreadChannel.cs:131 | An edit setting neither a duration nor `Invitable` always proceeds, unchanged. |
| Threads.ResolveTags | DisCatSharp/Entities/ThreadAndForum/DiscordThreadChannel.cs:107 | No more tags than ids. The tags are exactly those the parent finds for some applied id. |
| Threads.ResolveTagsKeepsAll | DisCatSharp/Entities/ThreadAndForum/DiscordThreadChannel.cs:107 | Nothing is dropped exactly when the parent knows every id. |
| Threads.ResolveTagsConcat | DisCatSharp/Entities/ThreadAndForum/DiscordThreadChannel.cs:107 | Resolution works id by id in order. |
| Threads.AppliedTags | DisCatSharp/Entities/ThreadAndForum/DiscordThreadChannel.cs:92-107 | Null exactly when the thread has no applied-tag list, otherwise the resolved tags. |
| Threads.AddTag | DisCatSharp/Entities/ThreadAndForum/DiscordThreadChannel.cs:148-149 | Sends the current tags in order with the new tag appended (length + 1). Copying a null list throws ArgumentNull. |
| Threads.RemoveTag | DisCatSharp/Entities/ThreadAndForum/DiscordThreadChannel.cs:160-161 | Sends the current tags with no copy of the tag left and every other tag's count unchanged. A null list throws ArgumentNull. |
| Threads.Without | DisCatSharp/Entities/ThreadAndForum/DiscordThreadChannel.cs:161 | The removed tag is absent, and exactly the other tags remain. |
| Threads.WithoutCounts | DisCatSharp/Entities/ThreadAndForum/DiscordThreadChannel.cs:161 | The multiset of the result is the input's with the tag's count set to zero. |
| Threads.WithoutConcat | DisCatSharp/Entities/ThreadAndForum/DiscordThreadChannel.cs:161 | Removal distributes over concatenation, so the rest keep their order. |
| Threads.WithoutAbsent | DisCatSharp/Entities/ThreadAndForum/DiscordThreadChannel.cs:161 | A list without the tag is unchanged. |
| Threads.WithoutIdempotent | DisCatSharp/Entities/ThreadAndForum/DiscordThreadChannel.cs:161 | Removing twice is removing once. |
| Threads.RemoveUndoesAdd | DisCatSharp/Entities/ThreadAndForum/DiscordThreadChannel.cs:149-161 | Removing the tag from what adding it sends gives what removing it sends. That is the current list when the tag was not applied. |
| Threads.TryGetMember | DisCatSharp/Entities/ThreadAndForum/DiscordThreadChannel.cs:231-241 | The fetched member, null exactly on a 404, and any other exception passed on. |
| Threads.ToString | DisCatSharp/Entities/ThreadAndForum/DiscordThreadChannel.cs:371-378 | The string opens with the type's label, then holds the name (null as empty), then " (", then decimal digits that read back as the thread's id, and closes with ")". |
| Threads.ToStringNamesType | DisCatSharp/Entities/ThreadAndForum/DiscordThreadChannel.cs:372-378 | The label opens the string. Its first letter tells news, private and other threads apart, and public and unknown types read "Thread". |
| Threads.ToStringIdentifies | DisCatSharp/Entities/ThreadAndForum/DiscordThreadChannel.cs:374-377 | For the same type and name, the strings are equal exactly when the ids are. |
| Boosting.Admits | DisCatSharp.CommandsNext/Attributes/RequireBoostingAttribute.cs:76-80 | False for no member or a member who does not boost. True for a booster when no limit is set, and otherwise iff the boost started no later than the limit. |
| Boosting.ExecuteCheck | DisCatSharp.CommandsNext/Attributes/RequireBoostingAttribute.cs:71-82 | With a guild, the member fetched by the invoking user's id decides, and a failed fetch propagates. Without a guild, the context's member decides. |
| Boosting.HelpIrrelevant | DisCatSharp.CommandsNext/Attributes/RequireBoostingAttribute.cs:71-82 | The help flag never changes the answer. |
| Boosting.ContextMemberDecides | DisCatSharp.CommandsNext/Attributes/RequireBoostingAttribute.cs:78-81 | Without a guild, the guild lookup is never consulted. |
| Boosting.GuildMemberDecides | DisCatSharp.CommandsNext/Attributes/RequireBoostingAttribute.cs:73-77 | With a guild, the context's own member does not matter. |
| Boosting.SinceMonotone | DisCatSharp.CommandsNext/Attributes/RequireBoostingAttribute.cs:76-80 | A later limit, or no limit, admits everyone an earlier limit admits. |
| Boosting.AdmitsExactly | DisCatSharp.CommandsNext/Attributes/RequireBoostingAttribute.cs:76-80 | Admitted members are exactly the boosters whose boost started by the limit. |
| Directory.DirectoryEntry.Equals | DisCatSharp/Entities/Channel/DiscordGuildDirectoryEntry.cs:72-73 | False for null, true for the same reference, and otherwise true iff the ids are equal. |
| Directory.DirectoryEntry.EqualsObject | DisCatSharp/Entities/Channel/DiscordGuildDirectoryEntry.cs:64-65 | A non-entry object is never equal. An entry is equal iff its id is. |
| Directory.DirectoryEntry.OpEq | DisCatSharp/Entities/Channel/DiscordGuildDirectoryEntry.cs:88-94 | Two nulls are equal, exactly one null is not, and two entries are equal iff their ids are. |
| Directory.DirectoryEntry.OpNe | DisCatSharp/Entities/Channel/DiscordGuildDirectoryEntry.cs:102-103 | True exactly when one side is null and the other is not, or both are entries with different ids. |
| Directory.DirectoryEntry.HashCode | DisCatSharp/Entities/Channel/DiscordGuildDirectoryEntry.cs:79-80 | The id's 32-bit hash. |
| Directory.OpEqEquivalence | DisCatSharp/Entities/Channel/DiscordGuildDirectoryEntry.cs:93 | `==` is reflexive, symmetric and transitive. |
| Directory.EqualsAgreesWithOperator | DisCatSharp/Entities/Channel/DiscordGuildDirectoryEntry.cs:64-93 | `Equals` agrees with `==` and with `Equals(object)`, and equal entries hash alike. |

## Left out

- **Not modelled:**
  - asynchronous execution, tasks and `ConfigureAwait`;
  - the HTTP client behind every platform call (each call is a parameter or an abstract answer);
  - JSON (de)serialisation;
  - logging text;
  - the `Discord` client references copied into new entities.
- **Log messages:** the warnings logged for unknown action types and unknown change keys are no-ops. The NotFound log in registration is kept as the list of logged ids, without its text.
- **Change values:** `AuditLogActionChange` is not part of this model.
  - `OldValueString` and `NewValueString` are the value when it is a string, and null otherwise.
  - `OldValueUlong` and `NewValueUlong` are taken to be a strict decimal parse of that string, throwing a format exception otherwise.
- **Overwrites:** `JObject.ToObject<DiscordOverwrite>` keeps only the object's id. The overwrite's other fields are opaque.
- **Message cache:** its `TryGet` is modelled as the first cached message with the id and channel. The cache is present exactly when the client is a `DiscordClient` with a message cache.
- **Guild members outside the modelled operations:**
  - the blocking `Owner` getter;
  - `GetDefaultChannel`, which depends on permission computation that is not shown;
  - the guild's `ToString`;
  - the REST pass-through methods.
- **List capacity hints:** `new List<>(MemberCount + 1)` has no observable effect and is left out.
- **Non-ASCII case folding:** `ToLowerInvariant` on change keys is modelled for ASCII letters only. Every key the code compares with is ASCII.
- **Aliasing:**
  - Guild members, roles and channels are values, so updates through other references to the same entity are not modelled.
  - In registration, `cmd.Id = key` mutates commands that are also elements of the caller's list. It is modelled by name, since a thrown duplicate key is the only way two overwritten commands can share a name.
- **Registered commands:** only their id and name are modelled. The other fields that the edit call copies are not.
- **Guild command registry:** it is modelled as a list of (guild id, command list) pairs that `First(l => l.Key == guildId)` searches.
- **Threads:**
  - The thread edit model keeps only the fields the guard reads; the rest pass through unchanged.
  - `CheckThreadAutoArchiveDurationFeature` is not part of this model: it is a parameter.
  - A null parent channel on the applied-tag lookup is not modelled. Neither is `GetForumPostTag`, which is a parameter.
  - Forum tags compare as values.
- **Boosting times:** `DateTimeOffset.DateTime` and `DateTime` are integers (ticks). Time-zone offsets are not modelled.
- **Out of scope:** `AddRoleAsync`/`RemoveRoleAsync` on threads and the other thread pass-throughs.
- `AuditPaging.FetchPages`, `Guilds.Guild.ListMembers`: the audit-log and member page requests never fail in the model. In the library, a failed page request throws out of `GetAuditLogsAsync` and `GetAllMembersAsync` before the member cache is touched. The model has no such path: each page is a plain value.
- `Boosting.ExecuteCheck`: with a configured guild, the member lookup is a pure function. The cache append that `GetMemberAsync` performs on a cache miss is not modelled for this check. That append is modelled for the guild itself in `Guilds.Guild.GetMember`.
- **JSON integers:** they are unbounded integers. Values outside the 64-bit range that the `(long)` and `(int)` unboxing works on are not modelled.
- **Where the code and its documentation disagree, the model follows the code:**
  - Audit paging stops on an empty page, not on a short one.
  - The icon and splash getters use `.jpg`, while the audit-log icon and splash changes use `.webp`.
