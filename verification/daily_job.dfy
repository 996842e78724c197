/**
 * The scheduled job `checkLeaveStatus` (functions/index.js:258-311), run every day at 00:01
 * Bangkok time: revert expired leave in the roster, then, when the bot is enabled, sync the
 * roster's avatars and the linked accounts' avatars from the guild, and write the roster back
 * if anything changed.
 */
module DailyJob {
  import opened Wrappers
  import Roster
  import OpUsers
  import BotStatus

  /** The guild's avatar url per Discord id, as the roster sync reads it. */
  function AvatarUrls(members: map<string, OpUsers.GuildMember>): (urls: map<string, string>)
    ensures urls.Keys == members.Keys
    ensures forall id :: id in urls ==> urls[id] == members[id].avatarUrl
  {
    map id | id in members :: members[id].avatarUrl
  }

  /**
   * The members the avatar syncs see: present when the bot is enabled, `ensureBotLogin()`
   * succeeds and the guild's members can be fetched.
   */
  function SyncSource(status: BotStatus.StatusRead, ready: bool, loginOk: bool, members: Option<map<string, OpUsers.GuildMember>>)
    : (src: Option<map<string, OpUsers.GuildMember>>)
    ensures src.Some? <==> status != BotStatus.Document(BotStatus.BoolActive(false)) && (ready || loginOk) && members.Some?
    ensures src.Some? ==> src == members
  {
    if BotStatus.IsBotEnabled(status) && BotStatus.EnsureBotLogin(ready, status, loginOk) then members else None
  }

  /** The roster after the job: leave reverted, then avatars synced when a member list is at hand. */
  function DailyRoster(items: seq<Roster.RosterEntry>, now: int, src: Option<map<string, OpUsers.GuildMember>>)
    : (r: seq<Roster.RosterEntry>)
    ensures |r| == |items|
    ensures forall i :: 0 <= i < |items| && !Roster.LeaveExpired(items[i], now) ==> r[i].status == items[i].status
    ensures forall i :: 0 <= i < |items| && Roster.LeaveExpired(items[i], now) ==> r[i].status == Roster.OnDuty
    ensures src.None? ==> r == Roster.RevertAll(items, now)
  {
    var reverted := Roster.RevertAll(items, now);
    if src.Some? then Roster.SyncAll(reverted, AvatarUrls(src.value)) else reverted
  }

  /**
   * One run of the job. A missing roster document stops it before anything else. The roster is
   * written once when it changed and not at all otherwise; the linked accounts are refreshed
   * whenever a member list is at hand.
   */
  method CheckLeaveStatus(
    doc: Roster.RosterDoc, users: array<OpUsers.OpUser>, now: int,
    status: BotStatus.StatusRead, ready: bool, loginOk: bool, members: Option<map<string, OpUsers.GuildMember>>)
    modifies doc, users
    ensures !old(doc.present) ==> unchanged(doc) && users[..] == old(users[..])
    ensures old(doc.present) ==>
      var src := SyncSource(status, ready, loginOk, members);
      doc.present &&
      doc.items == DailyRoster(old(doc.items), now, src) &&
      doc.writes == old(doc.writes) + (if doc.items != old(doc.items) then 1 else 0) &&
      users[..] == (if src.Some? then OpUsers.RefreshAll(old(users[..]), src.value, now) else old(users[..]))
  {
    if !doc.present {
      return;
    }
    var a := doc.Load();
    var updated := Roster.RevertExpiredLeaves(a, now);
    ghost var reverted := a[..];
    ghost var src := SyncSource(status, ready, loginOk, members);
    if BotStatus.IsBotEnabled(status) {
      var loggedIn := BotStatus.EnsureBotLogin(ready, status, loginOk);
      var urls := if members.Some? then Some(AvatarUrls(members.value)) else None;
      var synced := Roster.SyncAllAvatars(a, loggedIn, urls);
      if synced.Some? {
        updated := true;
      }
      var count := OpUsers.SyncOpUsersAvatars(users, loggedIn, members, now);
    }
    Roster.DailyFlagIffChanged(old(doc.items), now, if src.Some? then AvatarUrls(src.value) else map[]);
    if updated {
      doc.Write(a[..]);
    }
  }
}
