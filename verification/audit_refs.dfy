/** Resolving the users and webhooks an audit log references: each distinct id
    becomes the cached entity when there is one and a placeholder built from the
    referenced record otherwise. */
module AuditRefs {
  import opened Wrappers
  import opened Text
  import opened Collections
  import opened AuditTypes

  /** A dictionary whose every key is the id of the entity it maps to. */
  predicate KeyedById(d: map<Snowflake, Member>) {
    forall k :: k in d ==> d[k].id == k
  }

  /** The cached member with the user's id, else a placeholder member. */
  function ResolveUser(gms: map<Snowflake, Member>, u: RawUser): Member {
    if u.id in gms then gms[u.id] else Member(u.id, u.username, u.discriminator)
  }

  function ResolveUsers(gms: map<Snowflake, Member>, users: seq<RawUser>): (r: seq<Member>)
    ensures |r| == |users| && forall i :: 0 <= i < |users| ==> r[i] == ResolveUser(gms, users[i])
  {
    seq(|users|, i requires 0 <= i < |users| => ResolveUser(gms, users[i]))
  }

  /** `amd`: the referenced users grouped by id, resolved, and keyed by id. */
  function UserDirectory(gms: map<Snowflake, Member>, users: seq<RawUser>): Result<map<Snowflake, Member>> {
    ToDictionary(ResolveUsers(gms, DedupBy(users, RawUserId)), MemberId)
  }

  /** Building `amd` never throws; it has one entry per referenced user id, which
      is the cached member or else a placeholder made from the first record
      referencing that id. */
  lemma UserDirectoryResolves(gms: map<Snowflake, Member>, users: seq<RawUser>)
    requires KeyedById(gms)
    ensures var d := UserDirectory(gms, users);
      && d.Ok?
      && (forall k :: k in d.value <==> k in Keys(users, RawUserId))
      && (forall k :: k in d.value ==>
            FirstBy(users, RawUserId, k).Some?
            && var first := FirstBy(users, RawUserId, k).value;
               d.value[k] == if k in gms then gms[k] else Member(k, first.username, first.discriminator))
  {
    var dd := DedupBy(users, RawUserId);
    var ams := ResolveUsers(gms, dd);
    DedupByKeeps(users, RawUserId);
    assert Keys(ams, MemberId) == Keys(dd, RawUserId);
    assert DistinctBy(ams, MemberId);
    var d := ToMapBy(ams, MemberId);
    forall k | k in d
      ensures FirstBy(users, RawUserId, k).Some?
      ensures var first := FirstBy(users, RawUserId, k).value;
        d[k] == if k in gms then gms[k] else Member(k, first.username, first.discriminator)
    {
      var i :| 0 <= i < |ams| && Keys(ams, MemberId)[i] == k;
      ToMapByAt(ams, MemberId, i);
      assert dd[i].id == k;
    }
  }

  // ---------------------------------------------------------------------
  // Webhooks

  /** Whether the webhook list was requested, and `ahd` (null when it was not). */
  datatype WebhookLookup = WebhookLookup(requested: bool, directory: Result<Option<map<Snowflake, Webhook>>>)

  /** The guild's webhook with the referenced id, else the referenced record,
      which carries every field a placeholder copies. */
  function ResolveWebhook(whs: map<Snowflake, Webhook>, w: Webhook): Webhook {
    if w.id in whs then whs[w.id] else w
  }

  function ResolveWebhooks(whs: map<Snowflake, Webhook>, ws: seq<Webhook>): (r: seq<Webhook>)
    ensures |r| == |ws| && forall i :: 0 <= i < |ws| ==> r[i] == ResolveWebhook(whs, ws[i])
  {
    seq(|ws|, i requires 0 <= i < |ws| => ResolveWebhook(whs, ws[i]))
  }

  /** `ahd`: requested from the platform (`fetched`) only when some webhook is
      referenced; the platform's list is keyed with `ToDictionary`. */
  function WebhookDirectory(referenced: seq<Webhook>, fetched: Result<seq<Webhook>>): WebhookLookup {
    var ahr := DedupBy(referenced, WebhookId);
    if ahr == [] then WebhookLookup(false, Ok(None))
    else if fetched.Err? then WebhookLookup(true, Err(fetched.error))
    else
      var whs := ToDictionary(fetched.value, WebhookId);
      if whs.Err? then WebhookLookup(true, Err(whs.error))
      else
        var ahd := ToDictionary(ResolveWebhooks(whs.value, ahr), WebhookId);
        if ahd.Err? then WebhookLookup(true, Err(ahd.error))
        else WebhookLookup(true, Ok(Some(ahd.value)))
  }

  /** The webhook list is requested exactly when some webhook is referenced. */
  lemma WebhooksRequestedIffReferenced(referenced: seq<Webhook>, fetched: Result<seq<Webhook>>)
    ensures WebhookDirectory(referenced, fetched).requested <==> referenced != []
    ensures referenced == [] ==> WebhookDirectory(referenced, fetched).directory == Ok(None)
  {
    DedupByKeeps(referenced, WebhookId);
    if referenced != [] {
      assert Keys(referenced, WebhookId)[0] in Keys(referenced, WebhookId);
    }
  }

  /** A repeated id in the platform's webhook list makes the whole call throw. */
  lemma WebhookDirectoryRejectsDuplicates(referenced: seq<Webhook>, whr: seq<Webhook>)
    requires referenced != [] && !DistinctBy(whr, WebhookId)
    ensures WebhookDirectory(referenced, Ok(whr)).directory == Err(DuplicateKey)
  {
    WebhooksRequestedIffReferenced(referenced, Ok(whr));
  }

  /** With a referenced webhook and a platform list without repeated ids, `ahd`
      has one entry per referenced id: the platform's webhook with that id, or
      else the first referenced record with it. */
  lemma WebhookDirectoryResolves(referenced: seq<Webhook>, whr: seq<Webhook>)
    requires referenced != [] && DistinctBy(whr, WebhookId)
    ensures var r := WebhookDirectory(referenced, Ok(whr));
      && r.directory.Ok? && r.directory.value.Some?
      && var d := r.directory.value.value;
         && (forall k :: k in d <==> k in Keys(referenced, WebhookId))
         && (forall k :: k in d ==>
               if k in Keys(whr, WebhookId) then FirstBy(whr, WebhookId, k) == Some(d[k])
               else FirstBy(referenced, WebhookId, k) == Some(d[k]))
  {
    WebhooksRequestedIffReferenced(referenced, Ok(whr));
    var ahr := DedupBy(referenced, WebhookId);
    DedupByKeeps(referenced, WebhookId);
    var whs := ToMapBy(whr, WebhookId);
    var amh := ResolveWebhooks(whs, ahr);
    assert Keys(amh, WebhookId) == Keys(ahr, WebhookId);
    assert DistinctBy(amh, WebhookId);
    var d := ToMapBy(amh, WebhookId);
    forall k | k in d
      ensures if k in Keys(whr, WebhookId) then FirstBy(whr, WebhookId, k) == Some(d[k])
              else FirstBy(referenced, WebhookId, k) == Some(d[k])
    {
      var i :| 0 <= i < |amh| && Keys(amh, WebhookId)[i] == k;
      ToMapByAt(amh, WebhookId, i);
      assert ahr[i].id == k;
      if k in Keys(whr, WebhookId) {
        ToMapByFirst(whr, WebhookId, k);
      }
    }
  }
}
