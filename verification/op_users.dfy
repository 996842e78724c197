/**
 * The linked-account avatar refresh `syncOpUsersAvatars` (functions/index.js:492-537): every
 * `op_users` document with a Discord id that belongs to a guild member gets the member's
 * current avatar in both avatar fields, and the number of refreshed documents is counted.
 */
module OpUsers {
  import opened Wrappers

  /** What the guild reports for a member: avatar url and username. */
  datatype GuildMember = GuildMember(avatarUrl: string, username: string)

  /** An `op_users` document; `None` is a missing field, "" a missing Discord id. */
  datatype OpUser = OpUser(
    discordId: string,
    discordAvatar: Option<string>,
    avatar: Option<string>,
    discordUsername: Option<string>,
    lastAvatarSync: Option<int>)

  /** `needsUpdate`: a linked member, with either avatar field not showing the current url. */
  predicate NeedsUpdate(u: OpUser, members: map<string, GuildMember>)
  {
    u.discordId != "" && u.discordId in members &&
    (u.discordAvatar != Some(members[u.discordId].avatarUrl) || u.avatar != Some(members[u.discordId].avatarUrl))
  }

  /** The queued update: both avatar fields, the username and the sync time. */
  function Refreshed(u: OpUser, members: map<string, GuildMember>, now: int): (r: OpUser)
    ensures NeedsUpdate(u, members) ==>
      var m := members[u.discordId];
      r.discordAvatar == Some(m.avatarUrl) && r.avatar == Some(m.avatarUrl) &&
      r.discordUsername == Some(m.username) && r.lastAvatarSync == Some(now)
    ensures !NeedsUpdate(u, members) ==> r == u
    ensures r.discordId == u.discordId
  {
    if NeedsUpdate(u, members) then
      var m := members[u.discordId];
      u.(discordAvatar := Some(m.avatarUrl), avatar := Some(m.avatarUrl),
         discordUsername := Some(m.username), lastAvatarSync := Some(now))
    else u
  }

  function RefreshAll(users: seq<OpUser>, members: map<string, GuildMember>, now: int): seq<OpUser>
  {
    seq(|users|, i requires 0 <= i < |users| => Refreshed(users[i], members, now))
  }

  /** How many documents need an update. */
  function CountNeeding(users: seq<OpUser>, members: map<string, GuildMember>): nat
  {
    if users == [] then 0
    else CountNeeding(users[..|users| - 1], members) + (if NeedsUpdate(users[|users| - 1], members) then 1 else 0)
  }

  /** The count is zero exactly when no document needs an update. */
  lemma {:induction false} CountZeroIffNoneNeeds(users: seq<OpUser>, members: map<string, GuildMember>)
    ensures CountNeeding(users, members) == 0 <==> forall i :: 0 <= i < |users| ==> !NeedsUpdate(users[i], members)
  {
    if users != [] {
      var init := users[..|users| - 1];
      CountZeroIffNoneNeeds(init, members);
      assert forall i :: 0 <= i < |init| ==> init[i] == users[i];
    }
  }

  /** A refreshed document needs no further update. */
  lemma RefreshedNeedsNothing(u: OpUser, members: map<string, GuildMember>, now: int)
    ensures !NeedsUpdate(Refreshed(u, members, now), members)
  {
  }

  /** A second run straight after the first refreshes nothing (so commits nothing). */
  lemma RerunCountsZero(users: seq<OpUser>, members: map<string, GuildMember>, now: int, later: int)
    ensures CountNeeding(RefreshAll(users, members, now), members) == 0
    ensures RefreshAll(RefreshAll(users, members, now), members, later) == RefreshAll(users, members, now)
  {
    var once := RefreshAll(users, members, now);
    forall i | 0 <= i < |once|
      ensures !NeedsUpdate(once[i], members)
    {
      RefreshedNeedsNothing(users[i], members, now);
    }
    CountZeroIffNoneNeeds(once, members);
  }

  /**
   * The loop over the linked documents. Nothing happens when the bot cannot log in or the
   * guild's members cannot be fetched; otherwise every document that needs it is refreshed
   * (the batch is committed only when the count is positive, and with a zero count no document
   * differs) and the count is the number of such documents.
   */
  method SyncOpUsersAvatars(users: array<OpUser>, loggedIn: bool, members: Option<map<string, GuildMember>>, now: int)
    returns (updateCount: nat)
    modifies users
    ensures !loggedIn || members.None? ==> users[..] == old(users[..]) && updateCount == 0
    ensures loggedIn && members.Some? ==>
      users[..] == RefreshAll(old(users[..]), members.value, now) &&
      updateCount == CountNeeding(old(users[..]), members.value)
    ensures updateCount == 0 <==> users[..] == old(users[..])
  {
    if !loggedIn || members.None? {
      return 0;
    }
    var m := members.value;
    updateCount := 0;
    for i := 0 to users.Length
      invariant forall j :: 0 <= j < i ==> users[j] == Refreshed(old(users[j]), m, now)
      invariant forall j :: i <= j < users.Length ==> users[j] == old(users[j])
      invariant updateCount == CountNeeding(old(users[..])[..i], m)
    {
      var u := users[i];
      assert old(users[..])[..i + 1][..i] == old(users[..])[..i];
      if u.discordId != "" && u.discordId in m {
        var url := m[u.discordId].avatarUrl;
        if u.discordAvatar != Some(url) || u.avatar != Some(url) {
          users[i] := u.(discordAvatar := Some(url), avatar := Some(url),
                         discordUsername := Some(m[u.discordId].username), lastAvatarSync := Some(now));
          updateCount := updateCount + 1;
        }
      }
    }
    assert old(users[..])[..users.Length] == old(users[..]);
    CountZeroIffNoneNeeds(old(users[..]), m);
    if updateCount != 0 {
      assert users[..] != old(users[..]) by {
        var k :| 0 <= k < users.Length && NeedsUpdate(old(users[..])[k], m);
        assert users[..][k].discordAvatar != old(users[..])[k].discordAvatar ||
               users[..][k].avatar != old(users[..])[k].avatar;
      }
    }
  }
}
