/**
 * The roster document `cms_content/roster` and the cloud functions' changes to it: reverting
 * expired leave (functions/index.js:275-286), approving a leave (functions/index.js:390-413),
 * setting one member's avatar (functions/index.js:444-461) and syncing every avatar from the
 * guild (functions/index.js:464-489). Each `.map` callback in the source mutates the roster
 * entries in place and raises a flag; each is a method over an array of entries here, proved
 * equal to a per-entry function, and the flag decides whether the document is written.
 */
module Roster {
  import opened Wrappers

  const OnLeave: string := "ลางาน"
  const OnDuty: string := "ปฏิบัติงาน"

  /** A `statusDate`: missing or empty, a string `new Date` cannot read, or an instant in ms. */
  datatype Stamp = NoStamp | Unreadable | At(ms: int)

  /** One roster entry; `None` is a missing field. */
  datatype RosterEntry = RosterEntry(
    name: string,
    discordId: Option<string>,
    status: string,
    statusDate: Stamp,
    imageUrl: Option<string>)

  // ---------------------------------------------------------------- leave revert

  /** On leave with an end date that has passed (an unreadable date never compares as passed). */
  predicate LeaveExpired(e: RosterEntry, now: int)
  {
    e.status == OnLeave && e.statusDate.At? && now > e.statusDate.ms
  }

  /** An expired leave ends: back on duty, end date cleared. */
  function Reverted(e: RosterEntry, now: int): (r: RosterEntry)
    ensures LeaveExpired(e, now) ==> r.status == OnDuty && r.statusDate == NoStamp
    ensures r.name == e.name && r.discordId == e.discordId && r.imageUrl == e.imageUrl
    ensures r == e <==> !LeaveExpired(e, now)
  {
    if LeaveExpired(e, now) then e.(status := OnDuty, statusDate := NoStamp) else e
  }

  function RevertAll(items: seq<RosterEntry>, now: int): seq<RosterEntry>
  {
    seq(|items|, i requires 0 <= i < |items| => Reverted(items[i], now))
  }

  /** Reverting twice is reverting once. */
  lemma RevertIdempotent(items: seq<RosterEntry>, now: int)
    ensures RevertAll(RevertAll(items, now), now) == RevertAll(items, now)
  {
    var once := RevertAll(items, now);
    forall i | 0 <= i < |items|
      ensures Reverted(once[i], now) == once[i]
    {
      assert !LeaveExpired(once[i], now);
    }
  }

  /** The roster changes exactly when some leave has expired. */
  lemma RevertChangesIffExpired(items: seq<RosterEntry>, now: int)
    ensures RevertAll(items, now) != items <==> exists i :: 0 <= i < |items| && LeaveExpired(items[i], now)
  {
    if exists i :: 0 <= i < |items| && LeaveExpired(items[i], now) {
      var i :| 0 <= i < |items| && LeaveExpired(items[i], now);
      assert RevertAll(items, now)[i] != items[i];
    } else {
      assert RevertAll(items, now) == items;
    }
  }

  method RevertExpiredLeaves(a: array<RosterEntry>, now: int) returns (updated: bool)
    modifies a
    ensures a[..] == RevertAll(old(a[..]), now)
    ensures updated <==> exists i :: 0 <= i < a.Length && LeaveExpired(old(a[i]), now)
  {
    updated := false;
    for i := 0 to a.Length
      invariant forall j :: 0 <= j < i ==> a[j] == Reverted(old(a[j]), now)
      invariant forall j :: i <= j < a.Length ==> a[j] == old(a[j])
      invariant updated <==> exists j :: 0 <= j < i && LeaveExpired(old(a[j]), now)
    {
      if LeaveExpired(a[i], now) {
        a[i] := a[i].(status := OnDuty, statusDate := NoStamp);
        updated := true;
      }
    }
  }

  // ---------------------------------------------------------------- leave approval

  /** The requester's entries go on leave until `endMs`. */
  function Approved(e: RosterEntry, authorId: string, endMs: int): (r: RosterEntry)
    ensures e.discordId == Some(authorId) ==> r.status == OnLeave && r.statusDate == At(endMs)
    ensures e.discordId != Some(authorId) ==> r == e
    ensures r.name == e.name && r.discordId == e.discordId && r.imageUrl == e.imageUrl
  {
    if e.discordId == Some(authorId) then e.(status := OnLeave, statusDate := At(endMs)) else e
  }

  function ApproveAll(items: seq<RosterEntry>, authorId: string, endMs: int): seq<RosterEntry>
  {
    seq(|items|, i requires 0 <= i < |items| => Approved(items[i], authorId, endMs))
  }

  /** Entry i is the last one with the requester's id. */
  predicate LastMatch(items: seq<RosterEntry>, authorId: string, i: int)
  {
    0 <= i < |items| && items[i].discordId == Some(authorId) &&
    forall j :: i < j < |items| ==> items[j].discordId != Some(authorId)
  }

  /**
   * The in-place map: every entry of the requester goes on leave; `found` says whether there was
   * one, and `targetName` is the name of the last.
   */
  method ApproveLeave(a: array<RosterEntry>, authorId: string, endMs: int) returns (found: bool, targetName: string)
    modifies a
    ensures a[..] == ApproveAll(old(a[..]), authorId, endMs)
    ensures found <==> exists i :: 0 <= i < a.Length && old(a[i]).discordId == Some(authorId)
    ensures found ==> exists i :: LastMatch(old(a[..]), authorId, i) && targetName == old(a[i]).name
    ensures !found ==> targetName == ""
  {
    found := false;
    targetName := "";
    ghost var last := -1;
    for i := 0 to a.Length
      invariant forall j :: 0 <= j < i ==> a[j] == Approved(old(a[j]), authorId, endMs)
      invariant forall j :: i <= j < a.Length ==> a[j] == old(a[j])
      invariant found <==> exists j :: 0 <= j < i && old(a[j]).discordId == Some(authorId)
      invariant found ==> (0 <= last < i && old(a[last]).discordId == Some(authorId) && targetName == old(a[last]).name &&
        forall j :: last < j < i ==> old(a[j]).discordId != Some(authorId))
      invariant !found ==> targetName == ""
    {
      if a[i].discordId == Some(authorId) {
        found := true;
        targetName := a[i].name;
        last := i;
        a[i] := a[i].(status := OnLeave, statusDate := At(endMs));
      }
    }
    if found {
      assert LastMatch(old(a[..]), authorId, last);
    }
  }

  /** An approved leave lasts exactly until its end: the revert leaves it alone until then. */
  lemma ApprovedLeaveLastsUntilEnd(e: RosterEntry, authorId: string, endMs: int, now: int)
    requires e.discordId == Some(authorId)
    ensures Reverted(Approved(e, authorId, endMs), now).status == OnLeave <==> now <= endMs
  {
    assert OnLeave != OnDuty;
  }

  // ---------------------------------------------------------------- avatars

  /** The member's entries show `url`; entries already showing it are left as they are. */
  function WithAvatar(e: RosterEntry, discordId: string, url: string): (r: RosterEntry)
    ensures e.discordId == Some(discordId) ==> r.imageUrl == Some(url)
    ensures r.name == e.name && r.discordId == e.discordId && r.status == e.status && r.statusDate == e.statusDate
    ensures e.discordId != Some(discordId) ==> r == e
  {
    if e.discordId == Some(discordId) && e.imageUrl != Some(url) then e.(imageUrl := Some(url)) else e
  }

  function AvatarAll(items: seq<RosterEntry>, discordId: string, url: string): seq<RosterEntry>
  {
    seq(|items|, i requires 0 <= i < |items| => WithAvatar(items[i], discordId, url))
  }

  method SetAvatar(a: array<RosterEntry>, discordId: string, url: string) returns (found: bool)
    modifies a
    ensures a[..] == AvatarAll(old(a[..]), discordId, url)
    ensures found <==> a[..] != old(a[..])
  {
    found := false;
    for i := 0 to a.Length
      invariant forall j :: 0 <= j < i ==> a[j] == WithAvatar(old(a[j]), discordId, url)
      invariant forall j :: i <= j < a.Length ==> a[j] == old(a[j])
      invariant found <==> exists j :: 0 <= j < i && a[j] != old(a[j])
    {
      if a[i].discordId == Some(discordId) && a[i].imageUrl != Some(url) {
        a[i] := a[i].(imageUrl := Some(url));
        found := true;
      }
    }
    if found {
      assert a[..] != old(a[..]) by {
        var j :| 0 <= j < a.Length && a[j] != old(a[j]);
        assert a[..][j] != old(a[..])[j];
      }
    }
  }

  /** The entry's Discord id is set and belongs to a guild member (whose avatar url is given). */
  predicate Linked(e: RosterEntry, members: map<string, string>)
  {
    e.discordId.Some? && e.discordId.value != "" && e.discordId.value in members
  }

  /** A linked entry shows its member's current avatar. */
  function Synced(e: RosterEntry, members: map<string, string>): (r: RosterEntry)
    ensures Linked(e, members) ==> r.imageUrl == Some(members[e.discordId.value])
    ensures !Linked(e, members) ==> r == e
    ensures r.name == e.name && r.discordId == e.discordId && r.status == e.status && r.statusDate == e.statusDate
  {
    if Linked(e, members) && e.imageUrl != Some(members[e.discordId.value])
    then e.(imageUrl := Some(members[e.discordId.value])) else e
  }

  function SyncAll(items: seq<RosterEntry>, members: map<string, string>): seq<RosterEntry>
  {
    seq(|items|, i requires 0 <= i < |items| => Synced(items[i], members))
  }

  /** Syncing twice is syncing once. */
  lemma SyncIdempotent(items: seq<RosterEntry>, members: map<string, string>)
    ensures SyncAll(SyncAll(items, members), members) == SyncAll(items, members)
  {
  }

  /**
   * `syncAllAvatars(rosterData)`: null when the bot cannot log in or the guild's members cannot
   * be fetched, or when no url changed; otherwise the roster with every linked entry's url set.
   */
  method SyncAllAvatars(a: array<RosterEntry>, loggedIn: bool, members: Option<map<string, string>>)
    returns (updated: Option<seq<RosterEntry>>)
    modifies a
    ensures !loggedIn || members.None? ==> a[..] == old(a[..]) && updated.None?
    ensures loggedIn && members.Some? ==> a[..] == SyncAll(old(a[..]), members.value)
    ensures updated.Some? <==> a[..] != old(a[..])
    ensures updated.Some? ==> updated.value == a[..]
  {
    if !loggedIn || members.None? {
      return None;
    }
    var m := members.value;
    var changed := false;
    for i := 0 to a.Length
      invariant forall j :: 0 <= j < i ==> a[j] == Synced(old(a[j]), m)
      invariant forall j :: i <= j < a.Length ==> a[j] == old(a[j])
      invariant changed <==> exists j :: 0 <= j < i && a[j] != old(a[j])
    {
      var e := a[i];
      if e.discordId.Some? && e.discordId.value != "" && e.discordId.value in m {
        var url := m[e.discordId.value];
        if e.imageUrl != Some(url) {
          a[i] := e.(imageUrl := Some(url));
          changed := true;
        }
      }
    }
    if changed {
      assert a[..] != old(a[..]) by {
        var j :| 0 <= j < a.Length && a[j] != old(a[j]);
        assert a[..][j] != old(a[..])[j];
      }
      updated := Some(a[..]);
    } else {
      updated := None;
    }
  }

  /**
   * The daily job's flag: it is raised by a reverted leave or by a synced avatar, and it is
   * raised exactly when the roster that results differs from the stored one (a sync only
   * touches urls, so it cannot undo a revert).
   */
  lemma {:induction false} DailyFlagIffChanged(items: seq<RosterEntry>, now: int, members: map<string, string>)
    ensures var reverted := RevertAll(items, now);
      (reverted != items || SyncAll(reverted, members) != reverted) <==> SyncAll(reverted, members) != items
  {
    var reverted := RevertAll(items, now);
    RevertChangesIffExpired(items, now);
    if reverted != items {
      var i :| 0 <= i < |items| && LeaveExpired(items[i], now);
      assert SyncAll(reverted, members)[i].status == OnDuty != items[i].status;
    }
  }

  // ---------------------------------------------------------------- the stored document

  /** `cms_content/roster`: whether it exists, its `items`, and how many times it was written. */
  class RosterDoc {
    var present: bool
    var items: seq<RosterEntry>
    ghost var writes: nat

    constructor (items: seq<RosterEntry>)
      ensures present && this.items == items && writes == 0
    {
      present := true;
      this.items := items;
      writes := 0;
    }

    /** `rosterRef.update({items})`. */
    method Write(newItems: seq<RosterEntry>)
      requires present
      modifies this
      ensures present && items == newItems && writes == old(writes) + 1
    {
      items := newItems;
      writes := writes + 1;
    }

    /** A working copy of the items, as `doc.data().items` hands them out. */
    method Load() returns (a: array<RosterEntry>)
      ensures fresh(a) && a[..] == items
    {
      var s := items;
      a := new RosterEntry[|s|](i requires 0 <= i < |s| => s[i]);
    }
  }

  /**
   * The approval's roster update: every entry of the requester goes on leave until `endMs`, and
   * the document is written only when there was such an entry.
   */
  method ApproveLeaveInDb(doc: RosterDoc, authorId: string, endMs: int) returns (found: bool, targetName: string)
    modifies doc
    ensures !old(doc.present) ==> unchanged(doc) && !found
    ensures old(doc.present) ==>
      (found <==> exists i :: 0 <= i < |old(doc.items)| && old(doc.items)[i].discordId == Some(authorId)) &&
      doc.items == (if found then ApproveAll(old(doc.items), authorId, endMs) else old(doc.items)) &&
      doc.writes == old(doc.writes) + (if found then 1 else 0)
  {
    found, targetName := false, "";
    if !doc.present {
      return;
    }
    var a := doc.Load();
    found, targetName := ApproveLeave(a, authorId, endMs);
    if found {
      doc.Write(a[..]);
    }
  }

  /** `updateAvatarInDb`: no effect for an empty id; a write only when some url changed. */
  method UpdateAvatarInDb(doc: RosterDoc, discordId: string, url: string)
    modifies doc
    ensures doc.present == old(doc.present)
    ensures discordId == "" || !old(doc.present) ==> unchanged(doc)
    ensures discordId != "" && old(doc.present) ==>
      doc.items == AvatarAll(old(doc.items), discordId, url) &&
      doc.writes == old(doc.writes) + (if doc.items != old(doc.items) then 1 else 0)
  {
    if discordId == "" || !doc.present {
      return;
    }
    var a := doc.Load();
    var found := SetAvatar(a, discordId, url);
    if found {
      doc.Write(a[..]);
    }
  }

  /**
   * The `userUpdate` listener (functions/index.js:432-440): a member whose display avatar
   * changed has the new url stored on their roster entries.
   */
  method OnUserUpdate(doc: RosterDoc, userId: string, oldDisplayUrl: string, newDisplayUrl: string, newUrl: string)
    modifies doc
    ensures oldDisplayUrl == newDisplayUrl ==> unchanged(doc)
    ensures oldDisplayUrl != newDisplayUrl && userId != "" && old(doc.present) ==>
      doc.items == AvatarAll(old(doc.items), userId, newUrl)
    ensures doc.present == old(doc.present)
  {
    if oldDisplayUrl != newDisplayUrl {
      UpdateAvatarInDb(doc, userId, newUrl);
    }
  }
}
