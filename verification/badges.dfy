/**
 * Rank badges and status icons: the rank a member's roles give (discord-bot/bot.js:80-87,
 * functions/index.js:552-559), the emoji for a rank name (bot.js:90-101), the icon for a medic
 * status (bot.js:305-318) and the on-duty queue icons (bot.js:873-881).
 */
module Badges {
  import opened Wrappers

  /** The ranks, in the order of `ROLE_IDS` (highest first). */
  datatype Rank = SSSPlus | SSS | SS | A | B | C | D

  const RankOrder: seq<Rank> := [SSSPlus, SSS, SS, A, B, C, D]

  function RankName(r: Rank): string
  {
    match r
    case SSSPlus => "SSS+"
    case SSS => "SSS"
    case SS => "SS"
    case A => "A"
    case B => "B"
    case C => "C"
    case D => "D"
  }

  /**
   * The member holds the rank's role: its configured role id (an environment variable, "" when
   * unset) is set and among the member's roles.
   */
  predicate Holds(roleIds: map<Rank, string>, held: set<string>, r: Rank)
  {
    r in roleIds && roleIds[r] != "" && roleIds[r] in held
  }

  /** Position i of `ranks` is held, and no earlier position is. */
  predicate FirstHeldAt(ranks: seq<Rank>, roleIds: map<Rank, string>, held: set<string>, i: int)
  {
    0 <= i < |ranks| && Holds(roleIds, held, ranks[i]) && forall j :: 0 <= j < i ==> !Holds(roleIds, held, ranks[j])
  }

  /** The first rank of `ranks` the member holds, if any. */
  function FirstHeldRank(ranks: seq<Rank>, roleIds: map<Rank, string>, held: set<string>): (r: Option<Rank>)
    ensures r.None? <==> forall i :: 0 <= i < |ranks| ==> !Holds(roleIds, held, ranks[i])
    ensures r.Some? ==> exists i :: FirstHeldAt(ranks, roleIds, held, i) && ranks[i] == r.value
  {
    if ranks == [] then None
    else if Holds(roleIds, held, ranks[0]) then
      assert FirstHeldAt(ranks, roleIds, held, 0);
      Some(ranks[0])
    else
      var r := FirstHeldRank(ranks[1..], roleIds, held);
      assert r.Some? ==> exists i :: FirstHeldAt(ranks, roleIds, held, i) && ranks[i] == r.value by {
        if r.Some? {
          var k :| FirstHeldAt(ranks[1..], roleIds, held, k) && ranks[1..][k] == r.value;
          assert FirstHeldAt(ranks, roleIds, held, k + 1);
        }
      }
      r
  }

  /**
   * `getUserBadge(member)`: walk the ranks from the highest and return the first whose role the
   * member holds, or null. The cloud functions select a badge with the same loop.
   */
  method GetUserBadge(roleIds: map<Rank, string>, held: set<string>) returns (badge: Option<Rank>)
    ensures badge == FirstHeldRank(RankOrder, roleIds, held)
    ensures badge.None? <==> forall r :: r in RankOrder ==> !Holds(roleIds, held, r)
  {
    var i := 0;
    while i < |RankOrder|
      invariant 0 <= i <= |RankOrder|
      invariant FirstHeldRank(RankOrder, roleIds, held) == FirstHeldRank(RankOrder[i..], roleIds, held)
    {
      var rank := RankOrder[i];
      if Holds(roleIds, held, rank) {
        return Some(rank);
      }
      assert RankOrder[i..][1..] == RankOrder[i + 1..];
      i := i + 1;
    }
    return None;
  }

  /** A member who holds a rank's role never gets a lower badge. */
  lemma NeverBelowAHeldRank(roleIds: map<Rank, string>, held: set<string>, i: int)
    requires 0 <= i < |RankOrder| && Holds(roleIds, held, RankOrder[i])
    ensures var r := FirstHeldRank(RankOrder, roleIds, held);
      r.Some? && exists j :: 0 <= j <= i && RankOrder[j] == r.value
  {
    var r := FirstHeldRank(RankOrder, roleIds, held);
    var k :| FirstHeldAt(RankOrder, roleIds, held, k) && RankOrder[k] == r.value;
    assert k <= i;
  }

  /** `formatBadge(badge)`: the emoji for a rank name, '' for anything else. */
  function FormatBadge(badge: string): string
  {
    if badge == "SSS+" then "👑"
    else if badge == "SSS" then "⭐"
    else if badge == "SS" then "💎"
    else if badge == "A" then "🟢"
    else if badge == "B" then "🔵"
    else if badge == "C" then "🟡"
    else if badge == "D" then "⚪"
    else ""
  }

  /** Exactly the seven rank names have a badge, and no two ranks share one. */
  lemma BadgeOnlyForRanks(badge: string)
    ensures FormatBadge(badge) != "" <==> exists r :: RankName(r) == badge
    ensures forall r1, r2 :: r1 != r2 ==> FormatBadge(RankName(r1)) != FormatBadge(RankName(r2))
  {
    if FormatBadge(badge) != "" {
      var r :=
        if badge == "SSS+" then SSSPlus else if badge == "SSS" then SSS else if badge == "SS" then SS
        else if badge == "A" then A else if badge == "B" then B else if badge == "C" then C else D;
      assert RankName(r) == badge;
    }
  }

  /** `formatStatus(status)`: the icon for a medic status; '' for the two unmarked ones and unknowns. */
  function FormatStatus(status: string): string
  {
    if status == "waiting_fix" then "🔧"
    else if status == "not_accepting" then "🚫"
    else if status == "afk" then "⏳"
    else if status == "in_story" then "⚔️"
    else if status == "in_event" then "🎉"
    else if status == "break" then "☕"
    else if status == "busy" then "💼"
    else ""
  }

  /** Seven statuses carry an icon; 'available', 'in_queue' and unknown statuses carry none. */
  lemma StatusIconOnlyForMarkedStatuses(status: string)
    ensures FormatStatus(status) != "" <==>
      status in {"waiting_fix", "not_accepting", "afk", "in_story", "in_event", "break", "busy"}
  {
  }

  /** The icon after an on-duty name in the queue view, from the medic's queue button. */
  function OnDutyIcon(status: string): string
  {
    if status == "accept" then " 📍"
    else if status == "waitfix" then " ⏳"
    else if status == "decline" then " ❌"
    else ""
  }

  /** Only the three queue buttons give an icon, and each a different one. */
  lemma OnDutyIconOnlyForButtons(status: string)
    ensures OnDutyIcon(status) != "" <==> status in {"accept", "waitfix", "decline"}
    ensures OnDutyIcon("accept") != OnDutyIcon("waitfix") && OnDutyIcon("waitfix") != OnDutyIcon("decline") &&
      OnDutyIcon("accept") != OnDutyIcon("decline")
  {
  }
}
