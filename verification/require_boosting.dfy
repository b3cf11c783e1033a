/** The command check that admits only members who boost a guild,
    optionally since a given time at the latest. Times are clock readings in
    ticks; the member either comes from the command's context or is looked up
    by the invoking user's id in a configured guild. */
module Boosting {
  import opened Wrappers
  import opened Text

  /** A member as the check sees it: `premiumSince` is `None` for a member
      who does not boost. */
  datatype BoostMember = BoostMember(id: Snowflake, premiumSince: Option<int>)

  /** The attribute: the latest boost start it accepts, and the guild to look
      the member up in (`None` for the context's own member). */
  datatype RequireBoosting = RequireBoosting(since: Option<int>, guild: Option<Snowflake>)

  /** The parts of the command context the check reads. */
  datatype CommandContext = CommandContext(userId: Snowflake, member: Option<BoostMember>)

  /** The decision the check makes about one member (null for no member). */
  function Admits(m: Option<BoostMember>, since: Option<int>): (r: bool)
    ensures m.None? ==> !r
    ensures m.Some? && m.value.premiumSince.None? ==> !r
    ensures m.Some? && m.value.premiumSince.Some? && since.None? ==> r
    ensures m.Some? && m.value.premiumSince.Some? && since.Some? ==>
              (r <==> m.value.premiumSince.value <= since.value)
  {
    if m.Some? && m.value.premiumSince.Some? then
      if since.Some? then m.value.premiumSince.value <= since.value else true
    else false
  }

  /** `ExecuteCheckAsync`. `guildMember(g, u)` stands for
      `GetMemberAsync(u)` on guild `g`: a member, null, or the exception the
      fetch throws, which the check passes on. */
  function ExecuteCheck(attr: RequireBoosting, ctx: CommandContext, help: bool,
                        guildMember: (Snowflake, Snowflake) -> Result<Option<BoostMember>>)
    : (r: Result<bool>)
    ensures attr.guild.None? ==> r == Ok(Admits(ctx.member, attr.since))
    ensures attr.guild.Some? && guildMember(attr.guild.value, ctx.userId).Err? ==>
              r == Err(guildMember(attr.guild.value, ctx.userId).error)
    ensures attr.guild.Some? && guildMember(attr.guild.value, ctx.userId).Ok? ==>
              r == Ok(Admits(guildMember(attr.guild.value, ctx.userId).value, attr.since))
  {
    if attr.guild.Some? then
      match guildMember(attr.guild.value, ctx.userId)
      case Err(e) => Err(e)
      case Ok(m) => Ok(Admits(m, attr.since))
    else
      Ok(Admits(ctx.member, attr.since))
  }

  /** Asking for help does not change the answer. */
  lemma HelpIrrelevant(attr: RequireBoosting, ctx: CommandContext,
                       guildMember: (Snowflake, Snowflake) -> Result<Option<BoostMember>>)
    ensures ExecuteCheck(attr, ctx, true, guildMember) == ExecuteCheck(attr, ctx, false, guildMember)
  {
  }

  /** Without a configured guild, the context's member alone decides: the
      guild lookup is never consulted. */
  lemma ContextMemberDecides(attr: RequireBoosting, ctx: CommandContext,
                             lookup1: (Snowflake, Snowflake) -> Result<Option<BoostMember>>,
                             lookup2: (Snowflake, Snowflake) -> Result<Option<BoostMember>>)
    requires attr.guild.None?
    ensures ExecuteCheck(attr, ctx, false, lookup1) == ExecuteCheck(attr, ctx, false, lookup2)
  {
  }

  /** With a configured guild, the context's own member does not matter:
      only the member found under the invoking user's id does. */
  lemma GuildMemberDecides(attr: RequireBoosting, ctx: CommandContext, other: Option<BoostMember>,
                           guildMember: (Snowflake, Snowflake) -> Result<Option<BoostMember>>)
    requires attr.guild.Some?
    ensures ExecuteCheck(attr, ctx, false, guildMember)
         == ExecuteCheck(attr, ctx.(member := other), false, guildMember)
  {
  }

  /** A later limit admits everyone an earlier one admits, and no limit
      admits everyone any limit admits. */
  lemma SinceMonotone(m: Option<BoostMember>, s1: int, s2: int)
    requires s1 <= s2
    ensures Admits(m, Some(s1)) ==> Admits(m, Some(s2))
    ensures Admits(m, Some(s1)) ==> Admits(m, None)
  {
  }

  /** The members any limit admits are exactly the boosting members who
      started boosting by then. */
  lemma AdmitsExactly(m: Option<BoostMember>, since: Option<int>)
    ensures Admits(m, since) <==>
              (exists id, t :: m == Some(BoostMember(id, Some(t))) && (since.None? || t <= since.value))
  {
    if Admits(m, since) {
      var t := m.value.premiumSince.value;
      assert m == Some(BoostMember(m.value.id, Some(t)));
    }
  }
}
