/** The rules of a thread channel: the guard in front of a thread
    modification, the tag lists sent when a forum post tag is added or
    removed, the applied-tag lookup, the "try" member fetch and the display
    string. Every rule is a pure function of the thread and its inputs. */
module Threads {
  import opened Wrappers
  import opened Text

  /** The channel types a thread can report; any other type is `OtherChannel`. */
  datatype ChannelType = NewsThread | PublicThread | PrivateThread | OtherChannel(code: int)

  /** `ThreadAutoArchiveDuration`. */
  datatype ArchiveDuration = OneHour | OneDay | ThreeDays | OneWeek

  datatype ForumPostTag = ForumPostTag(id: Snowflake, name: string)

  datatype ThreadMember = ThreadMember(threadId: Snowflake, userId: Snowflake)

  /** The thread's own state that the rules read. `appliedTagIds` is `None`
      when the platform sent no `applied_tags` list. */
  datatype Thread = Thread(id: Snowflake, name: Option<string>, channelType: ChannelType,
                           appliedTagIds: Option<seq<Snowflake>>)

  /** The fields of a `ThreadEditModel` that the guard reads. An
      `Optional<T?>` is an `Option<Option<T>>`: the outer `None` is "not
      set", `Some(None)` is "set to null". The other fields of the model are
      handed on to the platform unchanged and are not modelled. */
  datatype ThreadEdit = ThreadEdit(name: Option<string>,
                                   autoArchiveDuration: Option<Option<ArchiveDuration>>,
                                   invitable: Option<Option<bool>>)

  // ---------------------------------------------------------------------
  // The modification guard

  const TierOneMessage: string := "Cannot modify ThreadAutoArchiveDuration. Guild needs boost tier one."
  const TierTwoMessage: string := "Cannot modify ThreadAutoArchiveDuration. Guild needs boost tier two."

  /** The duration the edit sets, if it sets one that is not null. */
  predicate SetsDuration(mdl: ThreadEdit) {
    mdl.autoArchiveDuration.Some? && mdl.autoArchiveDuration.value.Some?
  }

  /** `ModifyAsync`: the edit goes to the platform unchanged when it may
      proceed. `canCreatePrivateThreads` is the guild's feature flag and
      `durationAllowed` stands for the guild's boost-tier check of an archive
      duration (`Utilities.CheckThreadAutoArchiveDurationFeature`, which is
      not part of this model). A blocked edit builds its error message from
      the archive duration; when the edit sets none, reading it throws
      `InvalidOperationException` before the intended exception is made. */
  function Modify(mdl: ThreadEdit, canCreatePrivateThreads: bool,
                  durationAllowed: ArchiveDuration -> bool): (r: Result<ThreadEdit>)
    ensures mdl.invitable.Some? ==> (r.Ok? <==> canCreatePrivateThreads)
    ensures mdl.invitable.None? ==>
              (r.Ok? <==> !SetsDuration(mdl) || durationAllowed(mdl.autoArchiveDuration.value.value))
    ensures r.Ok? ==> r.value == mdl
    ensures r.Err? && SetsDuration(mdl) ==>
              r.error == NotSupported(if mdl.autoArchiveDuration.value.value == ThreeDays
                                      then TierOneMessage else TierTwoMessage)
    ensures r.Err? && !SetsDuration(mdl) ==> r.error == InvalidOperation
  {
    var canContinue :=
      if mdl.invitable.Some? then canCreatePrivateThreads
      else !SetsDuration(mdl) || durationAllowed(mdl.autoArchiveDuration.value.value);
    if canContinue then Ok(mdl)
    else if !SetsDuration(mdl) then Err(InvalidOperation)
    else if mdl.autoArchiveDuration.value.value == ThreeDays then Err(NotSupported(TierOneMessage))
    else Err(NotSupported(TierTwoMessage))
  }

  /** Setting `Invitable` overrides the archive-duration check: the outcome
      then depends on the private-thread feature alone, whatever duration the
      edit sets and whatever the tier check says. */
  lemma InvitableOverridesDuration(mdl: ThreadEdit, d: Option<Option<ArchiveDuration>>,
                                   canCreatePrivateThreads: bool,
                                   check1: ArchiveDuration -> bool, check2: ArchiveDuration -> bool)
    requires mdl.invitable.Some?
    ensures Modify(mdl, canCreatePrivateThreads, check1).Ok?
        == Modify(mdl.(autoArchiveDuration := d), canCreatePrivateThreads, check2).Ok?
  {
  }

  /** Without `Invitable`, an edit is blocked only by a duration the guild
      may not use, and the exception then names the tier the duration needs;
      the `InvalidOperationException` path needs `Invitable`. */
  lemma BlockedWithoutInvitable(mdl: ThreadEdit, canCreatePrivateThreads: bool,
                                durationAllowed: ArchiveDuration -> bool)
    requires mdl.invitable.None?
    requires Modify(mdl, canCreatePrivateThreads, durationAllowed).Err?
    ensures SetsDuration(mdl) && !durationAllowed(mdl.autoArchiveDuration.value.value)
    ensures Modify(mdl, canCreatePrivateThreads, durationAllowed).error.NotSupported?
  {
  }

  /** An edit that touches neither the duration nor `Invitable` always proceeds. */
  lemma PlainEditProceeds(mdl: ThreadEdit, canCreatePrivateThreads: bool,
                          durationAllowed: ArchiveDuration -> bool)
    requires mdl.invitable.None? && !SetsDuration(mdl)
    ensures Modify(mdl, canCreatePrivateThreads, durationAllowed) == Ok(mdl)
  {
  }

  // ---------------------------------------------------------------------
  // Applied tags

  /** `ids.Select(id => Parent.GetForumPostTag(id)).Where(x => x != null)`:
      each id looked up in the parent forum, misses dropped, order kept. */
  function ResolveTags(ids: seq<Snowflake>, lookup: Snowflake -> Option<ForumPostTag>): (r: seq<ForumPostTag>)
    ensures |r| <= |ids|
    ensures forall t :: t in r <==> exists id :: id in ids && lookup(id) == Some(t)
  {
    if ids == [] then []
    else
      var rest := ResolveTags(ids[1..], lookup);
      assert forall id :: id in ids <==> id == ids[0] || id in ids[1..];
      match lookup(ids[0])
      case Some(t) => [t] + rest
      case None => rest
  }

  /** Nothing is dropped exactly when every id is known to the parent. */
  lemma {:induction false} ResolveTagsKeepsAll(ids: seq<Snowflake>, lookup: Snowflake -> Option<ForumPostTag>)
    ensures |ResolveTags(ids, lookup)| == |ids| <==> forall i :: 0 <= i < |ids| ==> lookup(ids[i]).Some?
  {
    if ids != [] {
      ResolveTagsKeepsAll(ids[1..], lookup);
      assert forall i :: 1 <= i < |ids| ==> ids[i] == ids[1..][i - 1];
      if lookup(ids[0]).None? {
        assert |ResolveTags(ids[1..], lookup)| <= |ids[1..]|;
      }
    }
  }

  /** Resolving a concatenation resolves each part. */
  lemma {:induction false} ResolveTagsConcat(a: seq<Snowflake>, b: seq<Snowflake>,
                                             lookup: Snowflake -> Option<ForumPostTag>)
    ensures ResolveTags(a + b, lookup) == ResolveTags(a, lookup) + ResolveTags(b, lookup)
  {
    if a != [] {
      assert (a + b)[0] == a[0];
      assert (a + b)[1..] == a[1..] + b;
      ResolveTagsConcat(a[1..], b, lookup);
      var rest := ResolveTags(a[1..], lookup);
      if lookup(a[0]).Some? {
        assert ResolveTags(a + b, lookup) == [lookup(a[0]).value] + (rest + ResolveTags(b, lookup));
        assert ResolveTags(a, lookup) == [lookup(a[0]).value] + rest;
      }
    } else {
      assert a + b == b;
    }
  }

  /** `AppliedTags`: null when the thread has no applied-tag list, otherwise
      the resolved tags. */
  function AppliedTags(thread: Thread, lookup: Snowflake -> Option<ForumPostTag>): (r: Option<seq<ForumPostTag>>)
    ensures r.Some? <==> thread.appliedTagIds.Some?
    ensures r.Some? ==> r.value == ResolveTags(thread.appliedTagIds.value, lookup)
  {
    match thread.appliedTagIds
    case None => None
    case Some(ids) => Some(ResolveTags(ids, lookup))
  }

  /** The current tags with every occurrence of `tag` removed, in order. */
  function Without(ts: seq<ForumPostTag>, tag: ForumPostTag): (r: seq<ForumPostTag>)
    ensures tag !in r
    ensures |r| <= |ts|
    ensures forall t :: t in r <==> t in ts && t != tag
  {
    if ts == [] then []
    else if ts[0] == tag then Without(ts[1..], tag)
    else [ts[0]] + Without(ts[1..], tag)
  }

  /** Removing keeps the number of copies of every other tag and leaves none of `tag`. */
  lemma {:induction false} WithoutCounts(ts: seq<ForumPostTag>, tag: ForumPostTag)
    ensures multiset(Without(ts, tag)) == multiset(ts)[tag := 0]
  {
    if ts != [] {
      WithoutCounts(ts[1..], tag);
      assert ts == [ts[0]] + ts[1..];
    }
  }

  /** Removing distributes over concatenation, so the remaining tags keep
      their relative order. */
  lemma {:induction false} WithoutConcat(a: seq<ForumPostTag>, b: seq<ForumPostTag>, tag: ForumPostTag)
    ensures Without(a + b, tag) == Without(a, tag) + Without(b, tag)
  {
    if a != [] {
      assert (a + b)[0] == a[0];
      assert (a + b)[1..] == a[1..] + b;
      WithoutConcat(a[1..], b, tag);
      if a[0] != tag {
        assert Without(a + b, tag) == [a[0]] + (Without(a[1..], tag) + Without(b, tag));
        assert Without(a, tag) == [a[0]] + Without(a[1..], tag);
      }
    } else {
      assert a + b == b;
    }
  }

  /** A list without `tag` is left as it is. */
  lemma {:induction false} WithoutAbsent(ts: seq<ForumPostTag>, tag: ForumPostTag)
    requires tag !in ts
    ensures Without(ts, tag) == ts
  {
    if ts != [] {
      WithoutAbsent(ts[1..], tag);
    }
  }

  /** Removing twice is removing once. */
  lemma WithoutIdempotent(ts: seq<ForumPostTag>, tag: ForumPostTag)
    ensures Without(Without(ts, tag), tag) == Without(ts, tag)
  {
    WithoutAbsent(Without(ts, tag), tag);
  }

  /** `AddTagAsync`: the list sent to the platform. Copying a null tag list
      into a new list throws `ArgumentNullException`. */
  function AddTag(thread: Thread, lookup: Snowflake -> Option<ForumPostTag>, tag: ForumPostTag)
    : (r: Result<seq<ForumPostTag>>)
    ensures r.Err? <==> thread.appliedTagIds.None?
    ensures r.Err? ==> r.error == ArgumentNull
    ensures r.Ok? ==> |r.value| == |AppliedTags(thread, lookup).value| + 1
                      && r.value[..|r.value| - 1] == AppliedTags(thread, lookup).value
                      && r.value[|r.value| - 1] == tag
  {
    match AppliedTags(thread, lookup)
    case None => Err(ArgumentNull)
    case Some(ts) => Ok(ts + [tag])
  }

  /** `RemoveTagAsync`: the list sent to the platform. */
  function RemoveTag(thread: Thread, lookup: Snowflake -> Option<ForumPostTag>, tag: ForumPostTag)
    : (r: Result<seq<ForumPostTag>>)
    ensures r.Err? <==> thread.appliedTagIds.None?
    ensures r.Err? ==> r.error == ArgumentNull
    ensures r.Ok? ==> multiset(r.value) == multiset(AppliedTags(thread, lookup).value)[tag := 0]
  {
    match AppliedTags(thread, lookup)
    case None => Err(ArgumentNull)
    case Some(ts) =>
      WithoutCounts(ts, tag);
      Ok(Without(ts, tag))
  }

  /** Removing a tag from what adding it would send gives what removing it
      from the current tags sends; when the tag was not applied, that is the
      current list itself. */
  lemma RemoveUndoesAdd(thread: Thread, lookup: Snowflake -> Option<ForumPostTag>, tag: ForumPostTag)
    requires thread.appliedTagIds.Some?
    ensures Without(AddTag(thread, lookup, tag).value, tag) == RemoveTag(thread, lookup, tag).value
    ensures tag !in AppliedTags(thread, lookup).value ==>
              Without(AddTag(thread, lookup, tag).value, tag) == AppliedTags(thread, lookup).value
  {
    var ts := AppliedTags(thread, lookup).value;
    WithoutConcat(ts, [tag], tag);
    assert Without([tag], tag) == [];
    if tag !in ts {
      WithoutAbsent(ts, tag);
    }
  }

  // ---------------------------------------------------------------------
  // Members and display

  /** `TryGetMemberAsync`: the fetched member, null when the platform answers
      404, and any other failure passed on. */
  function TryGetMember(fetched: Result<ThreadMember>): (r: Result<Option<ThreadMember>>)
    ensures r == Ok(None) <==> fetched == Err(NotFound)
    ensures fetched.Ok? <==> r.Ok? && r.value.Some?
    ensures fetched.Ok? ==> r.value.value == fetched.value
    ensures r.Err? ==> fetched == Err(r.error) && r.error != NotFound
  {
    match fetched
    case Ok(m) => Ok(Some(m))
    case Err(NotFound) => Ok(None)
    case Err(e) => Err(e)
  }

  /** The label `ToString` opens with for each thread type. */
  function TypeLabel(t: ChannelType): string {
    match t
    case NewsThread => "News thread "
    case PrivateThread => "Private thread "
    case _ => "Thread "
  }

  /** `ToString`: `<label><name> (<id>)`, a null name rendered as nothing.
      The string opens with the type's label, then the name, then the id in
      parentheses, which reads back as the thread's id. */
  function ToString(thread: Thread): (s: string)
    ensures TypeLabel(thread.channelType) <= s
    ensures var l, n := |TypeLabel(thread.channelType)|, thread.name.GetOr("");
      && l + |n| + 4 <= |s|
      && s[l..l + |n|] == n
      && s[l + |n|..l + |n| + 2] == " (" && s[|s| - 1] == ')'
      && AllDigits(s[l + |n| + 2..|s| - 1])
      && DigitsValue(s[l + |n| + 2..|s| - 1]) == thread.id
  {
    var l, n, d := TypeLabel(thread.channelType), thread.name.GetOr(""), DecimalString(thread.id);
    DecimalRoundTrip(thread.id);
    var s := l + n + " (" + d + ")";
    assert s[|l| + |n| + 2..|s| - 1] == d;
    s
  }

  /** The display string opens with its type's label, and its first
      letter tells news, private and other threads apart. */
  lemma ToStringNamesType(thread: Thread)
    ensures TypeLabel(thread.channelType) <= ToString(thread)
    ensures thread.channelType.NewsThread? <==> ToString(thread)[0] == 'N'
    ensures thread.channelType.PrivateThread? <==> ToString(thread)[0] == 'P'
    ensures (!thread.channelType.NewsThread? && !thread.channelType.PrivateThread?)
              <==> ToString(thread)[0] == 'T'
  {
    var l := TypeLabel(thread.channelType);
    assert ToString(thread) == l + (thread.name.GetOr("") + " (" + DecimalString(thread.id) + ")");
    assert ToString(thread)[0] == l[0];
  }

  /** Two threads of the same type and name display alike exactly when their
      ids are equal: the id reads back from the string, as `ToString` ensures. */
  lemma ToStringIdentifies(t1: Thread, t2: Thread)
    requires t1.channelType == t2.channelType && t1.name == t2.name
    ensures ToString(t1) == ToString(t2) <==> t1.id == t2.id
  {
  }
}
