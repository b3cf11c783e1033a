/** Registering application commands: the local commands are compared by name
    with those already registered on the platform, giving a create list, an
    overwrite dictionary and a delete list, and one of three strategies sends
    them. The registries of registered commands are parameters, and the
    platform's answers are functions of the request. */
module Registration {
  import opened Wrappers
  import opened Text

  /** An application command. Only its id and its name take part in the
      comparison; its other fields travel with it unchanged. */
  datatype Command = Command(id: Snowflake, name: string)

  /** One entry of the per-guild registry: a guild and its registered commands,
      which may be null. */
  datatype GuildCommands = GuildCommands(guildId: Snowflake, commands: Option<seq<Command>>)

  /** One entry of an overwrite dictionary, in insertion order: the id of the
      registered command and the local command that replaces it. */
  datatype Edit = Edit(remoteId: Snowflake, command: Command)

  function NamesOf(s: seq<Command>): (r: seq<string>)
    ensures |r| == |s| && forall i :: 0 <= i < |s| ==> r[i] == s[i].name
  {
    seq(|s|, i requires 0 <= i < |s| => s[i].name)
  }

  function EditKeys(es: seq<Edit>): (r: seq<Snowflake>)
    ensures |r| == |es| && forall i :: 0 <= i < |es| ==> r[i] == es[i].remoteId
  {
    seq(|es|, i requires 0 <= i < |es| => es[i].remoteId)
  }

  function EditCommands(es: seq<Edit>): (r: seq<Command>)
    ensures |r| == |es| && forall i :: 0 <= i < |es| ==> r[i] == es[i].command
  {
    seq(|es|, i requires 0 <= i < |es| => es[i].command)
  }

  /** `Where(d => d.Name == name).First()` on a list that has such a command. */
  function FirstNamed(s: seq<Command>, n: string): (r: Command)
    requires n in NamesOf(s)
    ensures r in s && r.name == n
  {
    if s[0].name == n then s[0]
    else
      assert n in NamesOf(s[1..]) by {
        var i :| 0 <= i < |s| && NamesOf(s)[i] == n;
        assert NamesOf(s[1..])[i - 1] == n;
      }
      FirstNamed(s[1..], n)
  }

  /** The command found is the first one with the name. */
  lemma {:induction false} FirstNamedIsFirst(s: seq<Command>, n: string, i: int)
    requires 0 <= i < |s| && s[i].name == n
    requires forall j :: 0 <= j < i ==> s[j].name != n
    ensures n in NamesOf(s) && FirstNamed(s, n) == s[i]
  {
    assert NamesOf(s)[i] == n;
    if i > 0 {
      FirstNamedIsFirst(s[1..], n, i - 1);
    }
  }

  // ---------------------------------------------------------------------
  // The three lists

  /** `discord == null || !discord.Any(d => d.Name == cmd.Name)`. */
  predicate Unknown(discord: Option<seq<Command>>, c: Command) {
    discord.None? || c.name !in NamesOf(discord.value)
  }

  /** The local commands with no registered namesake, in local order. */
  function Unmatched(discord: Option<seq<Command>>, update: seq<Command>): (r: seq<Command>)
    ensures |r| <= |update|
    ensures forall c :: c in r ==> c in update && Unknown(discord, c)
  {
    if update == [] then []
    else
      var c := update[|update| - 1];
      Unmatched(discord, update[..|update| - 1]) + (if Unknown(discord, c) then [c] else [])
  }

  /** The overwrite dictionary: each local command with a registered namesake,
      keyed by the id of the first such registered command; adding a key twice
      throws. */
  function EditsFor(discord: seq<Command>, update: seq<Command>): (r: Result<seq<Edit>>)
    ensures r.Err? ==> r.error == DuplicateKey
    ensures r.Ok? ==> |r.value| <= |update|
  {
    if update == [] then Ok([])
    else
      var prev := EditsFor(discord, update[..|update| - 1]);
      var c := update[|update| - 1];
      if prev.Err? || c.name !in NamesOf(discord) then prev
      else
        var key := FirstNamed(discord, c.name).id;
        if key in EditKeys(prev.value) then Err(DuplicateKey)
        else Ok(prev.value + [Edit(key, c)])
  }

  /** The ids of the registered commands to delete: all of them when there is no
      local list, else those with no local namesake, in registered order. */
  function StaleIds(discord: seq<Command>, update: Option<seq<Command>>): (r: seq<Snowflake>)
    ensures |r| <= |discord|
  {
    if discord == [] then []
    else
      var c := discord[|discord| - 1];
      StaleIds(discord[..|discord| - 1], update) + (if Unknown(update, c) then [c.id] else [])
  }

  function GlobalCreateList(remote: Option<seq<Command>>, update: Option<seq<Command>>): Option<seq<Command>> {
    if remote.None? || remote.value == [] || update.None? then update
    else Some(Unmatched(remote, update.value))
  }

  function GlobalOverwriteList(remote: Option<seq<Command>>, update: Option<seq<Command>>): Result<Option<seq<Edit>>> {
    if remote.None? || remote.value == [] || update.None? then Ok(None)
    else
      match EditsFor(remote.value, update.value)
      case Ok(es) => Ok(Some(es))
      case Err(e) => Err(e)
  }

  function GlobalDeleteList(remote: Option<seq<Command>>, update: Option<seq<Command>>): Option<seq<Snowflake>> {
    if remote.None? || remote.value == [] then None
    else Some(StaleIds(remote.value, update))
  }

  function GuildIds(registry: seq<GuildCommands>): (r: seq<Snowflake>)
    ensures |r| == |registry| && forall i :: 0 <= i < |registry| ==> r[i] == registry[i].guildId
  {
    seq(|registry|, i requires 0 <= i < |registry| => registry[i].guildId)
  }

  /** `Where(l => l.Key == guildId).First().Value`: the commands of the first
      entry for the guild; with no entry, `First` throws. */
  function GuildEntry(registry: seq<GuildCommands>, guildId: Snowflake): (r: Result<Option<seq<Command>>>)
    ensures r.Ok? <==> guildId in GuildIds(registry)
    ensures r.Err? ==> r.error == InvalidOperation
  {
    if registry == [] then Err(InvalidOperation)
    else if registry[0].guildId == guildId then Ok(registry[0].commands)
    else
      assert GuildIds(registry) == [registry[0].guildId] + GuildIds(registry[1..]);
      GuildEntry(registry[1..], guildId)
  }

  function GuildCreateList(registry: Option<seq<GuildCommands>>, guildId: Snowflake, update: Option<seq<Command>>): Result<Option<seq<Command>>> {
    if registry.None? || registry.value == [] || update.None? then Ok(update)
    else
      match GuildEntry(registry.value, guildId)
      case Ok(discord) => Ok(Some(Unmatched(discord, update.value)))
      case Err(e) => Err(e)
  }

  function GuildOverwriteList(registry: Option<seq<GuildCommands>>, guildId: Snowflake, update: Option<seq<Command>>): Result<Option<seq<Edit>>> {
    if registry.None? || registry.value == [] || guildId !in GuildIds(registry.value) || update.None? then Ok(None)
    else
      match GuildEntry(registry.value, guildId)
      case Ok(discord) =>
        if discord.None? then Ok(None)
        else (match EditsFor(discord.value, update.value)
              case Ok(es) => Ok(Some(es))
              case Err(e) => Err(e))
      case Err(e) => Err(e)
  }

  function GuildDeleteList(registry: Option<seq<GuildCommands>>, guildId: Snowflake, update: Option<seq<Command>>): Result<Option<seq<Snowflake>>> {
    if registry.None? || registry.value == [] then Ok(None)
    else
      match GuildEntry(registry.value, guildId)
      case Ok(discord) => if discord.None? then Ok(None) else Ok(Some(StaleIds(discord.value, update)))
      case Err(e) => Err(e)
  }

  /** The three lists, built in the order the registration builds them. */
  datatype Lists = Lists(overwrite: Option<seq<Edit>>, create: Option<seq<Command>>, delete: Option<seq<Snowflake>>)

  function GlobalLists(remote: Option<seq<Command>>, update: Option<seq<Command>>): Result<Lists> {
    match GlobalOverwriteList(remote, update)
    case Err(e) => Err(e)
    case Ok(ov) => Ok(Lists(ov, GlobalCreateList(remote, update), GlobalDeleteList(remote, update)))
  }

  function GuildLists(registry: Option<seq<GuildCommands>>, guildId: Snowflake, update: Option<seq<Command>>): Result<Lists> {
    match GuildOverwriteList(registry, guildId, update)
    case Err(e) => Err(e)
    case Ok(ov) =>
      match GuildCreateList(registry, guildId, update)
      case Err(e) => Err(e)
      case Ok(cr) =>
        match GuildDeleteList(registry, guildId, update)
        case Err(e) => Err(e)
        case Ok(dl) => Ok(Lists(ov, cr, dl))
  }

  // ---------------------------------------------------------------------
  // Properties of the lists

  /** Every local command lands in exactly one of the create list and the
      overwrite dictionary. */
  lemma {:induction false} CreateOverwritePartition(discord: seq<Command>, update: seq<Command>)
    requires EditsFor(discord, update).Ok?
    ensures multiset(Unmatched(Some(discord), update)) + multiset(EditCommands(EditsFor(discord, update).value))
         == multiset(update)
  {
    if update != [] {
      var p := update[..|update| - 1];
      var c := update[|update| - 1];
      assert update == p + [c];
      CreateOverwritePartition(discord, p);
      var es := EditsFor(discord, p).value;
      if c.name in NamesOf(discord) {
        assert EditCommands(es + [Edit(FirstNamed(discord, c.name).id, c)]) == EditCommands(es) + [c];
      }
    }
  }

  /** The dictionary holds the local commands with a registered namesake, each
      keyed by the first namesake's id, with no key and no name twice. */
  lemma {:induction false} EditsForShape(discord: seq<Command>, update: seq<Command>)
    requires EditsFor(discord, update).Ok?
    ensures var es := EditsFor(discord, update).value;
      && (forall e :: e in es ==>
            e.command in update && e.command.name in NamesOf(discord) && e.remoteId == FirstNamed(discord, e.command.name).id)
      && (forall i, j :: 0 <= i < j < |es| ==> es[i].remoteId != es[j].remoteId && es[i].command.name != es[j].command.name)
  {
    if update != [] {
      var p := update[..|update| - 1];
      var c := update[|update| - 1];
      EditsForShape(discord, p);
      var es := EditsFor(discord, p).value;
      assert forall x :: x in p ==> x in update;
      if c.name in NamesOf(discord) {
        forall i | 0 <= i < |es|
          ensures es[i].command.name != c.name
        {
          assert EditKeys(es)[i] == es[i].remoteId;
          assert es[i] in es;
        }
      }
    }
  }

  /** Two local commands sharing a registered name make the dictionary throw. */
  lemma {:induction false} SharedNameThrows(discord: seq<Command>, update: seq<Command>, i: int, j: int)
    requires 0 <= i < j < |update| && update[i].name == update[j].name && update[i].name in NamesOf(discord)
    ensures EditsFor(discord, update) == Err(DuplicateKey)
  {
    var p := update[..|update| - 1];
    if j < |update| - 1 {
      SharedNameThrows(discord, p, i, j);
    } else if EditsFor(discord, p).Ok? {
      EditsForHas(discord, p, i);
    }
  }

  /** A local command with a registered name has its key in the dictionary. */
  lemma {:induction false} EditsForHas(discord: seq<Command>, update: seq<Command>, i: int)
    requires 0 <= i < |update| && update[i].name in NamesOf(discord) && EditsFor(discord, update).Ok?
    ensures FirstNamed(discord, update[i].name).id in EditKeys(EditsFor(discord, update).value)
  {
    var p := update[..|update| - 1];
    var es := EditsFor(discord, update).value;
    if i < |update| - 1 {
      EditsForHas(discord, p, i);
      assert EditKeys(EditsFor(discord, p).value) <= EditKeys(es);
    } else {
      assert EditKeys(es)[|es| - 1] == es[|es| - 1].remoteId;
    }
  }

  /** The delete list holds the id of each registered command without a local
      namesake (each one when there is no local list), and nothing else. */
  lemma {:induction false} StaleIdsExact(discord: seq<Command>, update: Option<seq<Command>>)
    ensures forall c :: c in discord && Unknown(update, c) ==> c.id in StaleIds(discord, update)
    ensures forall k :: k in StaleIds(discord, update) ==> exists c :: c in discord && Unknown(update, c) && c.id == k
    ensures update.None? ==> |StaleIds(discord, update)| == |discord|
  {
    if discord != [] {
      var p := discord[..|discord| - 1];
      assert discord == p + [discord[|discord| - 1]];
      StaleIdsExact(p, update);
    }
  }

  /** With no registered commands every local command is created, nothing is
      overwritten and nothing deleted. */
  lemma NothingRegistered(remote: Option<seq<Command>>, update: Option<seq<Command>>)
    requires remote.None? || remote.value == []
    ensures GlobalLists(remote, update) == Ok(Lists(None, update, None))
  {
  }

  /** With registered commands and no local list, every registered command is
      deleted and nothing is created or overwritten. */
  lemma NoLocalListDeletesAll(remote: seq<Command>)
    requires remote != []
    ensures GlobalLists(Some(remote), None).Ok?
    ensures var l := GlobalLists(Some(remote), None).value;
      && l.overwrite.None? && l.create.None? && l.delete.Some?
      && |l.delete.value| == |remote|
      && forall c :: c in remote ==> c.id in l.delete.value
  {
    StaleIdsExact(remote, None);
  }

  /** A registry that is not empty but has no entry for the guild makes the
      create and delete builders throw from `First`, while the overwrite
      builder returns null; the registration then throws before any call. */
  lemma AbsentGuildThrows(registry: seq<GuildCommands>, guildId: Snowflake, update: Option<seq<Command>>)
    requires registry != [] && guildId !in GuildIds(registry)
    ensures GuildOverwriteList(Some(registry), guildId, update) == Ok(None)
    ensures update.Some? ==> GuildCreateList(Some(registry), guildId, update) == Err(InvalidOperation)
    ensures GuildDeleteList(Some(registry), guildId, update) == Err(InvalidOperation)
    ensures GuildLists(Some(registry), guildId, update) == Err(InvalidOperation)
  {
  }

  // ---------------------------------------------------------------------
  // Calls to the platform

  /** Where commands are registered: globally or in one guild. */
  datatype Scope = Global | InGuild(guildId: Snowflake)

  datatype ApiCall =
    | BulkOverwrite(scope: Scope, commands: seq<Command>)
    | CreateCommand(scope: Scope, command: Command)
    | EditCommand(scope: Scope, commandId: Snowflake, command: Command)
    | DeleteCommand(scope: Scope, commandId: Snowflake)

  /** The platform's answer to each call; a delete answers with the exception
      it raises, if any. */
  datatype Api = Api(
    bulkOverwrite: (Scope, seq<Command>) -> Result<seq<Command>>,
    create: (Scope, Command) -> Result<Command>,
    edit: (Scope, Snowflake, Command) -> Result<Command>,
    delete: (Scope, Snowflake) -> Option<Exception>)

  /** The calls made so far, the ids whose delete was logged as not found, the
      caller's list (null allowed) and the exception raised, if any. */
  datatype Progress = Progress(calls: seq<ApiCall>, logged: seq<Snowflake>, commands: Option<seq<Command>>,
                               failure: Option<Exception>)

  /** `Commands.AddRange(xs)`, which throws on a null list. */
  function AddAll(p: Progress, xs: seq<Command>): Progress {
    if p.commands.None? then p.(failure := Some(NullReference))
    else p.(commands := Some(p.commands.value + xs))
  }

  /** One call: it is recorded, and its answer is added to the caller's list; a
      delete answered with `NotFoundException` is logged instead of thrown. */
  function StepCall(call: ApiCall, p: Progress, api: Api): Progress {
    var q := p.(calls := p.calls + [call]);
    match call
    case BulkOverwrite(s, cs) =>
      var res := api.bulkOverwrite(s, cs);
      if res.Err? then q.(failure := Some(res.error)) else AddAll(q, res.value)
    case CreateCommand(s, c) =>
      var res := api.create(s, c);
      if res.Err? then q.(failure := Some(res.error)) else AddAll(q, [res.value])
    case EditCommand(s, id, c) =>
      var res := api.edit(s, id, c);
      if res.Err? then q.(failure := Some(res.error)) else AddAll(q, [res.value])
    case DeleteCommand(s, id) =>
      var res := api.delete(s, id);
      if res == Some(NotFound) then q.(logged := q.logged + [id]) else q.(failure := res)
  }

  /** Calls made one after another until one throws. */
  function Run(calls: seq<ApiCall>, p: Progress, api: Api): Progress {
    if calls == [] then p
    else
      var q := Run(calls[..|calls| - 1], p, api);
      if q.failure.Some? then q else StepCall(calls[|calls| - 1], q, api)
  }

  function CreateCalls(scope: Scope, cs: seq<Command>): (r: seq<ApiCall>)
    ensures |r| == |cs|
  {
    seq(|cs|, i requires 0 <= i < |cs| => CreateCommand(scope, cs[i]))
  }

  function EditCalls(scope: Scope, es: seq<Edit>): (r: seq<ApiCall>)
    ensures |r| == |es|
  {
    seq(|es|, i requires 0 <= i < |es| => EditCommand(scope, es[i].remoteId, es[i].command))
  }

  function DeleteCalls(scope: Scope, ids: seq<Snowflake>): (r: seq<ApiCall>)
    ensures |r| == |ids|
  {
    seq(|ids|, i requires 0 <= i < |ids| => DeleteCommand(scope, ids[i]))
  }

  /** The commands sent by the overwrite-only strategy: each with its id set to
      its dictionary key. */
  function WithRemoteIds(es: seq<Edit>): (r: seq<Command>)
    ensures |r| == |es|
    ensures forall i :: 0 <= i < |es| ==> r[i].name == es[i].command.name && r[i].id == es[i].remoteId
  {
    seq(|es|, i requires 0 <= i < |es| => es[i].command.(id := es[i].remoteId))
  }

  /** `cmd.Id = overwrite.Key` on the local command, which is also an element
      of the caller's list: the element carrying its name gets the key. */
  function AssignId(commands: Option<seq<Command>>, e: Edit): Option<seq<Command>> {
    if commands.None? then None
    else
      var s := commands.value;
      Some(seq(|s|, i requires 0 <= i < |s| => if s[i].name == e.command.name then s[i].(id := e.remoteId) else s[i]))
  }

  function AssignIds(commands: Option<seq<Command>>, es: seq<Edit>): (r: Option<seq<Command>>)
    ensures r.Some? <==> commands.Some?
  {
    if es == [] then commands
    else AssignId(AssignIds(commands, es[..|es| - 1]), es[|es| - 1])
  }

  /** `CheckAnyAndNotNull`. */
  predicate AnyList<T>(l: Option<seq<T>>) {
    l.Some? && l.value != []
  }

  /** The strategy: one bulk overwrite with the create list; or, after the ids
      are set, one bulk overwrite with the dictionary's commands; or a create
      per new command followed by an edit per overwritten one; or nothing. */
  function Strategy(scope: Scope, l: Lists, commands: Option<seq<Command>>, api: Api): Progress {
    var start := Progress([], [], commands, None);
    if AnyList(l.create) && !AnyList(l.overwrite) then
      Run([BulkOverwrite(scope, l.create.value)], start, api)
    else if !AnyList(l.create) && AnyList(l.overwrite) then
      Run([BulkOverwrite(scope, WithRemoteIds(l.overwrite.value))],
          start.(commands := AssignIds(commands, l.overwrite.value)), api)
    else if AnyList(l.create) && AnyList(l.overwrite) then
      var p := Run(CreateCalls(scope, l.create.value), start, api);
      if p.failure.Some? then p else Run(EditCalls(scope, l.overwrite.value), p, api)
    else start
  }

  /** What a registration did: its calls, the deletes it logged, the caller's
      list afterwards, and whether it returned the list (true), null (false)
      or threw. */
  datatype Registration = Registration(calls: seq<ApiCall>, logged: seq<Snowflake>, commands: Option<seq<Command>>,
                                       outcome: Result<bool>)

  /** `Register{Global,Guild}CommandsAsync` once the lists are built: the
      strategy, then a delete per id in the delete list, then the list itself
      when it has any command and null otherwise. */
  function Register(scope: Scope, lists: Result<Lists>, commands: Option<seq<Command>>, api: Api): Registration {
    match lists
    case Err(e) => Registration([], [], commands, Err(e))
    case Ok(l) =>
      var p := Strategy(scope, l, commands, api);
      var q := if p.failure.None? && AnyList(l.delete) then Run(DeleteCalls(scope, l.delete.value), p, api) else p;
      Registration(q.calls, q.logged, q.commands,
                   if q.failure.Some? then Err(q.failure.value) else Ok(AnyList(q.commands)))
  }

  // ---------------------------------------------------------------------
  // Properties of the registration

  /** A call the platform answers without an exception, counting a delete
      answered with `NotFoundException`. */
  predicate Answered(call: ApiCall, api: Api) {
    match call
    case BulkOverwrite(s, cs) => api.bulkOverwrite(s, cs).Ok?
    case CreateCommand(s, c) => api.create(s, c).Ok?
    case EditCommand(s, id, c) => api.edit(s, id, c).Ok?
    case DeleteCommand(s, id) => api.delete(s, id).None? || api.delete(s, id) == Some(NotFound)
  }

  /** Every call of a list is answered. */
  predicate AllAnswered(calls: seq<ApiCall>, api: Api) {
    calls == [] || (AllAnswered(calls[..|calls| - 1], api) && Answered(calls[|calls| - 1], api))
  }

  lemma {:induction false} AllAnsweredOf(calls: seq<ApiCall>, api: Api)
    requires forall c :: c in calls ==> Answered(c, api)
    ensures AllAnswered(calls, api)
  {
    if calls != [] {
      var pre := calls[..|calls| - 1];
      assert forall c :: c in pre ==> c in calls;
      assert calls[|calls| - 1] in calls;
      AllAnsweredOf(pre, api);
    }
  }

  /** What an answered call adds to the caller's list. */
  function Answer(call: ApiCall, api: Api): seq<Command>
    requires Answered(call, api)
  {
    match call
    case BulkOverwrite(s, cs) => api.bulkOverwrite(s, cs).value
    case CreateCommand(s, x) => [api.create(s, x).value]
    case EditCommand(s, id, x) => [api.edit(s, id, x).value]
    case DeleteCommand(_, _) => []
  }

  /** What answered calls add to the caller's list. */
  function Added(calls: seq<ApiCall>, api: Api): seq<Command>
    requires AllAnswered(calls, api)
  {
    if calls == [] then [] else Added(calls[..|calls| - 1], api) + Answer(calls[|calls| - 1], api)
  }

  /** The id of a delete answered with `NotFoundException`. */
  function NotFoundId(c: ApiCall, api: Api): seq<Snowflake> {
    if c.DeleteCommand? && api.delete(c.scope, c.commandId) == Some(NotFound) then [c.commandId] else []
  }

  /** The deletes answered with `NotFoundException`. */
  function NotFoundIds(calls: seq<ApiCall>, api: Api): seq<Snowflake> {
    if calls == [] then []
    else NotFoundIds(calls[..|calls| - 1], api) + NotFoundId(calls[|calls| - 1], api)
  }

  /** An answered call is recorded, adds its answer, and throws nothing. */
  lemma StepAnswered(c: ApiCall, p: Progress, api: Api)
    requires p.failure.None? && p.commands.Some? && Answered(c, api)
    ensures StepCall(c, p, api) ==
      Progress(p.calls + [c], p.logged + NotFoundId(c, api), Some(p.commands.value + Answer(c, api)), None)
  {
    if c.DeleteCommand? {
      assert p.commands.value + Answer(c, api) == p.commands.value;
    }
  }

  /** When every call is answered, each one is made, in order, their answers
      are appended to the caller's list, and nothing is thrown: a delete that
      is not found is logged and skipped. */
  lemma {:induction false} RunAnswered(calls: seq<ApiCall>, p: Progress, api: Api)
    requires p.failure.None? && p.commands.Some? && AllAnswered(calls, api)
    ensures Run(calls, p, api) ==
      Progress(p.calls + calls, p.logged + NotFoundIds(calls, api), Some(p.commands.value + Added(calls, api)), None)
  {
    if calls != [] {
      var pre := calls[..|calls| - 1];
      var c := calls[|calls| - 1];
      RunAnswered(pre, p, api);
      StepAnswered(c, Run(pre, p, api), api);
      assert Run(calls, p, api) == StepCall(c, Run(pre, p, api), api);
      assert calls == pre + [c];
      assert p.calls + pre + [c] == p.calls + calls;
      assert p.logged + NotFoundIds(pre, api) + NotFoundId(c, api) == p.logged + NotFoundIds(calls, api);
      assert p.commands.value + Added(pre, api) + Answer(c, api) == p.commands.value + Added(calls, api);
    } else {
      assert p.calls + calls == p.calls && p.logged + NotFoundIds(calls, api) == p.logged;
      assert p.commands.value + Added(calls, api) == p.commands.value;
    }
  }

  /** The calls of the strategy when nothing throws. */
  function StrategyCalls(scope: Scope, l: Lists): seq<ApiCall> {
    if AnyList(l.create) && !AnyList(l.overwrite) then [BulkOverwrite(scope, l.create.value)]
    else if !AnyList(l.create) && AnyList(l.overwrite) then [BulkOverwrite(scope, WithRemoteIds(l.overwrite.value))]
    else if AnyList(l.create) && AnyList(l.overwrite) then
      CreateCalls(scope, l.create.value) + EditCalls(scope, l.overwrite.value)
    else []
  }

  function DeleteStage(scope: Scope, l: Lists): seq<ApiCall> {
    if AnyList(l.delete) then DeleteCalls(scope, l.delete.value) else []
  }

  /** The calls of a registration in which nothing throws. */
  function Planned(scope: Scope, l: Lists): seq<ApiCall> {
    StrategyCalls(scope, l) + DeleteStage(scope, l)
  }

  /** The caller's list before the first call: with ids assigned when only
      the dictionary is sent. */
  function Prepared(l: Lists, commands: Option<seq<Command>>): (r: Option<seq<Command>>)
    ensures r.Some? <==> commands.Some?
  {
    if !AnyList(l.create) && AnyList(l.overwrite) then AssignIds(commands, l.overwrite.value) else commands
  }

  /** When the strategy's calls are answered, it makes them in order and appends
      their answers to the prepared list. */
  lemma StrategyAnswered(scope: Scope, l: Lists, commands: seq<Command>, api: Api)
    requires AllAnswered(StrategyCalls(scope, l), api)
    ensures Strategy(scope, l, Some(commands), api)
         == Run(StrategyCalls(scope, l), Progress([], [], Prepared(l, Some(commands)), None), api)
  {
    if AnyList(l.create) && AnyList(l.overwrite) {
      var start := Progress([], [], Some(commands), None);
      var cc := CreateCalls(scope, l.create.value);
      var ec := EditCalls(scope, l.overwrite.value);
      AllAnsweredSplit(cc, ec, api);
      RunAnswered(cc, start, api);
      RunConcat(cc, ec, start, api);
    }
  }

  /** When every call is answered, a registration makes exactly the planned
      calls, appends the platform's answers to the caller's list, logs the
      deletes that were not found, and returns the list unless it is empty. */
  lemma RegisterAnswered(scope: Scope, l: Lists, commands: seq<Command>, api: Api)
    requires forall c :: c in Planned(scope, l) ==> Answered(c, api)
    ensures AllAnswered(Planned(scope, l), api)
    ensures var r := Register(scope, Ok(l), Some(commands), api);
      var cs := Prepared(l, Some(commands)).value + Added(Planned(scope, l), api);
      && r.calls == Planned(scope, l)
      && r.logged == NotFoundIds(Planned(scope, l), api)
      && r.commands == Some(cs)
      && r.outcome == Ok(cs != [])
  {
    AllAnsweredOf(Planned(scope, l), api);
    RunPlanned(scope, l, commands, api);
    RegisterAfterStrategy(scope, l, Some(commands), api);
  }

  /** The strategy and then the deletes, when every call is answered. */
  lemma RunPlanned(scope: Scope, l: Lists, commands: seq<Command>, api: Api)
    requires AllAnswered(Planned(scope, l), api)
    ensures Strategy(scope, l, Some(commands), api).failure.None?
    ensures var q := Run(DeleteStage(scope, l), Strategy(scope, l, Some(commands), api), api);
      && q.calls == Planned(scope, l) && q.logged == NotFoundIds(Planned(scope, l), api)
      && q.commands == Some(Prepared(l, Some(commands)).value + Added(Planned(scope, l), api)) && q.failure.None?
  {
    var sc, dc := StrategyCalls(scope, l), DeleteStage(scope, l);
    AllAnsweredSplit(sc, dc, api);
    StrategyAnswered(scope, l, commands, api);
    RunAnswered(sc, Progress([], [], Prepared(l, Some(commands)), None), api);
    RunTwo(sc, dc, Prepared(l, Some(commands)).value, api);
  }

  /** Two answered runs, one after the other, from an empty record. */
  lemma RunTwo(a: seq<ApiCall>, b: seq<ApiCall>, cs: seq<Command>, api: Api)
    requires AllAnswered(a + b, api)
    ensures AllAnswered(a, api) && AllAnswered(b, api)
    ensures var q := Run(b, Run(a, Progress([], [], Some(cs), None), api), api);
      && q.calls == a + b && q.logged == NotFoundIds(a + b, api)
      && q.commands == Some(cs + Added(a + b, api)) && q.failure.None?
  {
    AllAnsweredSplit(a, b, api);
    var s0 := Progress([], [], Some(cs), None);
    RunAnswered(a, s0, api);
    RunConcat(a, b, s0, api);
    RunAnswered(a + b, s0, api);
    assert [] + (a + b) == a + b;
    assert [] + NotFoundIds(a + b, api) == NotFoundIds(a + b, api);
  }

  /** Both halves of an answered list are answered. */
  lemma {:induction false} AllAnsweredSplit(a: seq<ApiCall>, b: seq<ApiCall>, api: Api)
    requires AllAnswered(a + b, api)
    ensures AllAnswered(a, api) && AllAnswered(b, api)
  {
    if b != [] {
      var b' := b[..|b| - 1];
      assert (a + b)[..|a + b| - 1] == a + b';
      AllAnsweredSplit(a, b', api);
    } else {
      assert a + b == a;
    }
  }

  /** Once the strategy has thrown nothing, the registration runs the deletes. */
  lemma RegisterAfterStrategy(scope: Scope, l: Lists, commands: Option<seq<Command>>, api: Api)
    requires Strategy(scope, l, commands, api).failure.None?
    ensures var q := Run(DeleteStage(scope, l), Strategy(scope, l, commands, api), api);
      Register(scope, Ok(l), commands, api)
        == Registration(q.calls, q.logged, q.commands, if q.failure.Some? then Err(q.failure.value) else Ok(AnyList(q.commands)))
  {
  }

  lemma {:induction false} RunConcat(a: seq<ApiCall>, b: seq<ApiCall>, p: Progress, api: Api)
    requires Run(a, p, api).failure.None?
    ensures Run(a + b, p, api) == Run(b, Run(a, p, api), api)
  {
    if b != [] {
      var b' := b[..|b| - 1];
      assert (a + b)[..|a + b| - 1] == a + b';
      RunConcat(a, b', p, api);
    } else {
      assert a + b == a;
    }
  }

  /** With the dictionary from `EditsFor`, whose names are distinct, assigning
      the ids gives each local command with a registered namesake the id of the
      first one, and leaves the others as they were. */
  lemma {:induction false} AssignIdsSetsKeys(commands: seq<Command>, es: seq<Edit>)
    requires forall i, j :: 0 <= i < j < |es| ==> es[i].command.name != es[j].command.name
    ensures AssignIds(Some(commands), es).Some?
    ensures var r := AssignIds(Some(commands), es).value;
      && |r| == |commands|
      && forall i :: 0 <= i < |commands| ==>
           r[i].name == commands[i].name
           && (forall e :: e in es && e.command.name == commands[i].name ==> r[i].id == e.remoteId)
           && ((forall e :: e in es ==> e.command.name != commands[i].name) ==> r[i] == commands[i])
  {
    if es != [] {
      var pre := es[..|es| - 1];
      AssignIdsSetsKeys(commands, pre);
      forall e | e in pre ensures e.command.name != es[|es| - 1].command.name {
        var k :| 0 <= k < |pre| && pre[k] == e;
      }
    }
  }

  // ---------------------------------------------------------------------
  // The loops

  /** The caller's command list, which the registration appends to. */
  class CommandList {
    var items: seq<Command>

    constructor (items: seq<Command>)
      ensures this.items == items
    {
      this.items := items;
    }
  }

  function ListOf(l: CommandList?): Option<seq<Command>>
    reads l
  {
    if l == null then None else Some(l.items)
  }

  /** The `NewCommands` loop of the create builders. */
  method NewCommands(discord: Option<seq<Command>>, update: seq<Command>) returns (r: seq<Command>)
    ensures r == Unmatched(discord, update)
  {
    r := [];
    for i := 0 to |update|
      invariant r == Unmatched(discord, update[..i])
    {
      assert update[..i + 1][..i] == update[..i];
      if discord.None? || update[i].name !in NamesOf(discord.value) {
        r := r + [update[i]];
      }
    }
    assert update[..|update|] == update;
  }

  lemma {:induction false} EditsForErrSticks(discord: seq<Command>, update: seq<Command>, k: nat)
    requires k <= |update| && EditsFor(discord, update[..k]).Err?
    ensures EditsFor(discord, update) == EditsFor(discord, update[..k])
    decreases |update| - k
  {
    if k < |update| {
      var p := update[..|update| - 1];
      assert p[..k] == update[..k];
      EditsForErrSticks(discord, p, k);
    } else {
      assert update[..k] == update;
    }
  }

  /** The `UpdateCommands` loop of the overwrite builders. */
  method UpdateCommands(discord: seq<Command>, update: seq<Command>) returns (r: Result<seq<Edit>>)
    ensures r == EditsFor(discord, update)
  {
    var edits: seq<Edit> := [];
    for i := 0 to |update|
      invariant EditsFor(discord, update[..i]) == Ok(edits)
    {
      assert update[..i + 1][..i] == update[..i];
      var cmd := update[i];
      if cmd.name in NamesOf(discord) {
        var key := FirstNamed(discord, cmd.name).id;
        if key in EditKeys(edits) {
          EditsForErrSticks(discord, update, i + 1);
          return Err(DuplicateKey);
        }
        edits := edits + [Edit(key, cmd)];
      }
    }
    assert update[..|update|] == update;
    r := Ok(edits);
  }

  /** The `InvalidCommandIds` loops of the delete builders. */
  method InvalidCommandIds(discord: seq<Command>, update: Option<seq<Command>>) returns (r: seq<Snowflake>)
    ensures r == StaleIds(discord, update)
  {
    r := [];
    if update.None? {
      for i := 0 to |discord|
        invariant r == StaleIds(discord[..i], update)
      {
        assert discord[..i + 1][..i] == discord[..i];
        r := r + [discord[i].id];
      }
    } else {
      for i := 0 to |discord|
        invariant r == StaleIds(discord[..i], update)
      {
        assert discord[..i + 1][..i] == discord[..i];
        if discord[i].name !in NamesOf(update.value) {
          r := r + [discord[i].id];
        }
      }
    }
    assert discord[..|discord|] == discord;
  }

  method BuildGlobalCreateList(remote: Option<seq<Command>>, update: Option<seq<Command>>) returns (r: Option<seq<Command>>)
    ensures r == GlobalCreateList(remote, update)
  {
    if remote.None? || remote.value == [] || update.None? {
      return update;
    }
    var cs := NewCommands(remote, update.value);
    r := Some(cs);
  }

  method BuildGlobalOverwriteList(remote: Option<seq<Command>>, update: Option<seq<Command>>) returns (r: Result<Option<seq<Edit>>>)
    ensures r == GlobalOverwriteList(remote, update)
  {
    if remote.None? || remote.value == [] || update.None? {
      return Ok(None);
    }
    var es := UpdateCommands(remote.value, update.value);
    r := if es.Ok? then Ok(Some(es.value)) else Err(es.error);
  }

  method BuildGlobalDeleteList(remote: Option<seq<Command>>, update: Option<seq<Command>>) returns (r: Option<seq<Snowflake>>)
    ensures r == GlobalDeleteList(remote, update)
  {
    if remote.None? || remote.value == [] {
      return None;
    }
    var ids := InvalidCommandIds(remote.value, update);
    r := Some(ids);
  }

  method BuildGuildCreateList(registry: Option<seq<GuildCommands>>, guildId: Snowflake, update: Option<seq<Command>>)
    returns (r: Result<Option<seq<Command>>>)
    ensures r == GuildCreateList(registry, guildId, update)
  {
    if registry.None? || registry.value == [] || update.None? {
      return Ok(update);
    }
    var discord := GuildEntry(registry.value, guildId);
    if discord.Err? {
      return Err(discord.error);
    }
    var cs := NewCommands(discord.value, update.value);
    r := Ok(Some(cs));
  }

  method BuildGuildOverwriteList(registry: Option<seq<GuildCommands>>, guildId: Snowflake, update: Option<seq<Command>>)
    returns (r: Result<Option<seq<Edit>>>)
    ensures r == GuildOverwriteList(registry, guildId, update)
  {
    if registry.None? || registry.value == [] || guildId !in GuildIds(registry.value) || update.None? {
      return Ok(None);
    }
    var discord := GuildEntry(registry.value, guildId);
    if discord.value.None? {
      return Ok(None);
    }
    var es := UpdateCommands(discord.value.value, update.value);
    r := if es.Ok? then Ok(Some(es.value)) else Err(es.error);
  }

  method BuildGuildDeleteList(registry: Option<seq<GuildCommands>>, guildId: Snowflake, update: Option<seq<Command>>)
    returns (r: Result<Option<seq<Snowflake>>>)
    ensures r == GuildDeleteList(registry, guildId, update)
  {
    if registry.None? || registry.value == [] {
      return Ok(None);
    }
    var discord := GuildEntry(registry.value, guildId);
    if discord.Err? {
      return Err(discord.error);
    }
    if discord.value.None? {
      return Ok(None);
    }
    var ids := InvalidCommandIds(discord.value.value, update);
    r := Ok(Some(ids));
  }

  /** One call to the platform, appending its answer to the caller's list. */
  method Perform(call: ApiCall, calls: seq<ApiCall>, logged: seq<Snowflake>, commands: CommandList?, api: Api)
    returns (calls': seq<ApiCall>, logged': seq<Snowflake>, failure: Option<Exception>)
    modifies commands
    ensures Progress(calls', logged', ListOf(commands), failure)
         == StepCall(call, Progress(calls, logged, old(ListOf(commands)), None), api)
  {
    calls', logged', failure := calls + [call], logged, None;
    var added: seq<Command> := [];
    match call {
      case BulkOverwrite(s, cs) =>
        var res := api.bulkOverwrite(s, cs);
        if res.Err? {
          return calls', logged', Some(res.error);
        }
        added := res.value;
      case CreateCommand(s, c) =>
        var res := api.create(s, c);
        if res.Err? {
          return calls', logged', Some(res.error);
        }
        added := [res.value];
      case EditCommand(s, id, c) =>
        var res := api.edit(s, id, c);
        if res.Err? {
          return calls', logged', Some(res.error);
        }
        added := [res.value];
      case DeleteCommand(s, id) =>
        var res := api.delete(s, id);
        if res == Some(NotFound) {
          logged' := logged + [id];
        } else {
          failure := res;
        }
        return;
    }
    if commands == null {
      failure := Some(NullReference);
    } else {
      commands.items := commands.items + added;
    }
  }

  lemma {:induction false} RunSticks(calls: seq<ApiCall>, p: Progress, api: Api, k: nat)
    requires k <= |calls| && Run(calls[..k], p, api).failure.Some?
    ensures Run(calls, p, api) == Run(calls[..k], p, api)
    decreases |calls| - k
  {
    if k < |calls| {
      var pre := calls[..|calls| - 1];
      assert pre[..k] == calls[..k];
      RunSticks(pre, p, api, k);
    } else {
      assert calls[..k] == calls;
    }
  }

  /** A `foreach` over calls, stopping at the first exception. */
  method RunCalls(cs: seq<ApiCall>, calls: seq<ApiCall>, logged: seq<Snowflake>, commands: CommandList?, api: Api)
    returns (calls': seq<ApiCall>, logged': seq<Snowflake>, failure: Option<Exception>)
    modifies commands
    ensures Progress(calls', logged', ListOf(commands), failure)
         == Run(cs, Progress(calls, logged, old(ListOf(commands)), None), api)
  {
    ghost var p0 := Progress(calls, logged, ListOf(commands), None);
    calls', logged', failure := calls, logged, None;
    for i := 0 to |cs|
      invariant failure.None?
      invariant Progress(calls', logged', ListOf(commands), None) == Run(cs[..i], p0, api)
    {
      assert cs[..i + 1][..i] == cs[..i];
      calls', logged', failure := Perform(cs[i], calls', logged', commands, api);
      if failure.Some? {
        RunSticks(cs, p0, api, i + 1);
        return;
      }
    }
    assert cs[..|cs|] == cs;
  }

  /** The strategy, the deletes and the result, once the lists are built. */
  method RegisterLists(scope: Scope, l: Lists, commands: CommandList?, api: Api)
    returns (calls: seq<ApiCall>, logged: seq<Snowflake>, result: Result<CommandList?>)
    modifies commands
    ensures Registration(calls, logged, ListOf(commands), if result.Ok? then Ok(result.value != null) else Err(result.error))
         == Register(scope, Ok(l), old(ListOf(commands)), api)
    ensures result.Ok? && result.value != null ==> result.value == commands
  {
    ghost var start := Progress([], [], ListOf(commands), None);
    var failure: Option<Exception> := None;
    calls, logged := [], [];
    if AnyList(l.create) && !AnyList(l.overwrite) {
      calls, logged, failure := RunCalls([BulkOverwrite(scope, l.create.value)], calls, logged, commands, api);
    } else if !AnyList(l.create) && AnyList(l.overwrite) {
      var es := l.overwrite.value;
      var sent: seq<Command> := [];
      for i := 0 to |es|
        invariant sent == WithRemoteIds(es[..i])
        invariant ListOf(commands) == AssignIds(old(ListOf(commands)), es[..i])
      {
        assert es[..i + 1][..i] == es[..i];
        sent := sent + [es[i].command.(id := es[i].remoteId)];
        if commands != null {
          var s := commands.items;
          commands.items := seq(|s|, k requires 0 <= k < |s| =>
                                if s[k].name == es[i].command.name then s[k].(id := es[i].remoteId) else s[k]);
        }
      }
      assert es[..|es|] == es;
      calls, logged, failure := RunCalls([BulkOverwrite(scope, sent)], calls, logged, commands, api);
    } else if AnyList(l.create) && AnyList(l.overwrite) {
      calls, logged, failure := RunCalls(CreateCalls(scope, l.create.value), calls, logged, commands, api);
      if failure.None? {
        calls, logged, failure := RunCalls(EditCalls(scope, l.overwrite.value), calls, logged, commands, api);
      }
    }
    assert Progress(calls, logged, ListOf(commands), failure) == Strategy(scope, l, old(ListOf(commands)), api);
    if failure.None? && AnyList(l.delete) {
      calls, logged, failure := RunCalls(DeleteCalls(scope, l.delete.value), calls, logged, commands, api);
    }
    if failure.Some? {
      return calls, logged, Err(failure.value);
    }
    result := if commands != null && commands.items != [] then Ok(commands) else Ok(null);
  }

  /** `RegisterGlobalCommandsAsync`. */
  method RegisterGlobalCommands(remote: Option<seq<Command>>, commands: CommandList?, api: Api)
    returns (calls: seq<ApiCall>, logged: seq<Snowflake>, result: Result<CommandList?>)
    modifies commands
    ensures Registration(calls, logged, ListOf(commands), if result.Ok? then Ok(result.value != null) else Err(result.error))
         == Register(Global, GlobalLists(remote, old(ListOf(commands))), old(ListOf(commands)), api)
    ensures result.Ok? && result.value != null ==> result.value == commands
  {
    var update := ListOf(commands);
    var ov := BuildGlobalOverwriteList(remote, update);
    if ov.Err? {
      return [], [], Err(ov.error);
    }
    var cr := BuildGlobalCreateList(remote, update);
    var dl := BuildGlobalDeleteList(remote, update);
    calls, logged, result := RegisterLists(Global, Lists(ov.value, cr, dl), commands, api);
  }

  /** `RegisterGuilldCommandsAsync`. */
  method RegisterGuildCommands(registry: Option<seq<GuildCommands>>, guildId: Snowflake, commands: CommandList?, api: Api)
    returns (calls: seq<ApiCall>, logged: seq<Snowflake>, result: Result<CommandList?>)
    modifies commands
    ensures Registration(calls, logged, ListOf(commands), if result.Ok? then Ok(result.value != null) else Err(result.error))
         == Register(InGuild(guildId), GuildLists(registry, guildId, old(ListOf(commands))), old(ListOf(commands)), api)
    ensures result.Ok? && result.value != null ==> result.value == commands
  {
    var update := ListOf(commands);
    var ov := BuildGuildOverwriteList(registry, guildId, update);
    if ov.Err? {
      return [], [], Err(ov.error);
    }
    var cr := BuildGuildCreateList(registry, guildId, update);
    if cr.Err? {
      return [], [], Err(cr.error);
    }
    var dl := BuildGuildDeleteList(registry, guildId, update);
    if dl.Err? {
      return [], [], Err(dl.error);
    }
    calls, logged, result := RegisterLists(InGuild(guildId), Lists(ov.value, cr.value, dl.value), commands, api);
  }
}
