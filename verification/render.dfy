/**
 * The texts the bot posts: the "waiting for an operator" view, the live queue view, the case
 * view, the end-of-shift summary and the one-line history of a closed case. Each list section
 * is built in the source by a `forEach` loop appending one line per entry; each loop is a method
 * here, proved equal to a left fold of the per-entry line.
 */
module Render {
  import opened Wrappers
  import opened Text
  import opened Calendar
  import opened Shift
  import opened Identity
  import opened Badges
  import opened TodayFilter

  /**
   * What the bot takes from its host: the clock and the `th-TH` locale labels (the date in
   * Bangkok, the date in host time, the time of day in Bangkok now, the Bangkok time of day of a
   * timestamp, and the date label of a case's `storyDate`).
   */
  datatype Env = Env(
    now: int,
    bangkokDate: string,
    hostDate: string,
    bangkokTime: string,
    timeOf: int -> string,
    storyDateLabel: string -> string)

  const Rule: string := "────────────────────\n"
  const DoubleRule: string := "════════════════════\n"
  const NoneLine: string := "_ไม่มี_\n"

  /** `s` starts with `p`. */
  predicate StartsWith(s: string, p: string)
  {
    |p| <= |s| && s[..|p|] == p
  }

  /** The view posted while no operator is on shift (bot.js:839-844, repeated at 769-774). */
  function WaitingText(date: string): (s: string)
    ensures StartsWith(s, "**📋 สรุปการเข้าเวร OP**\n")
  {
    "**📋 สรุปการเข้าเวร OP**\n" + Rule + "📅 " + date + "\n" + Rule + "\n" +
    "🚫 **ไม่มีกะ ณ ขณะนี้**\n\n" + "_รอ OP เปิดกะ..._\n"
  }

  // ---------------------------------------------------------------- names, capped

  function NameLine(name: string): string
  {
    "• " + name + "\n"
  }

  /** One bullet line per name, in order. */
  function NameLines(names: seq<string>): string
  {
    if names == [] then "" else NameLines(names[..|names| - 1]) + NameLine(names[|names| - 1])
  }

  /** The line that stands for the `hidden` names beyond the cap. */
  function Overflow(hidden: nat): string
  {
    "_...และอีก " + NatToString(hidden) + " คน_\n"
  }

  /** The first `cap` names, then a count of the rest when there are more. */
  function CappedNames(names: seq<string>, cap: nat): string
  {
    if |names| <= cap then NameLines(names)
    else NameLines(names[..cap]) + Overflow(|names| - cap)
  }

  /** Listing two lists one after the other lists their concatenation. */
  lemma {:induction false} NameLinesAppend(a: seq<string>, b: seq<string>)
    ensures NameLines(a + b) == NameLines(a) + NameLines(b)
    decreases |b|
  {
    if b == [] {
      assert a + b == a;
    } else {
      var b' := b[..|b| - 1];
      assert (a + b)[..|a + b| - 1] == a + b';
      assert (a + b)[|a + b| - 1] == b[|b| - 1];
      assert NameLines(a + b) == NameLines(a + b') + NameLine(b[|b| - 1]);
      NameLinesAppend(a, b');
    }
  }

  /**
   * Past the cap, the capped listing is the full listing with its tail of `|names| - cap` lines
   * replaced by one line that counts them; up to the cap it is the full listing.
   */
  lemma CappedListingHidesOnlyTheTail(names: seq<string>, cap: nat)
    ensures |names| <= cap ==> CappedNames(names, cap) == NameLines(names)
    ensures |names| > cap ==>
      NameLines(names) == NameLines(names[..cap]) + NameLines(names[cap..]) &&
      CappedNames(names, cap) == NameLines(names[..cap]) + Overflow(|names[cap..]|)
  {
    if |names| > cap {
      assert names == names[..cap] + names[cap..];
      NameLinesAppend(names[..cap], names[cap..]);
    }
  }

  method RenderNames(names: seq<string>) returns (s: string)
    ensures s == NameLines(names)
  {
    s := "";
    for i := 0 to |names|
      invariant s == NameLines(names[..i])
    {
      assert names[..i + 1][..i] == names[..i];
      s := s + NameLine(names[i]);
    }
    assert names[..|names|] == names;
  }

  method RenderCappedNames(names: seq<string>, cap: nat) returns (s: string)
    ensures s == CappedNames(names, cap)
  {
    if |names| <= cap {
      s := RenderNames(names);
    } else {
      s := RenderNames(names[..cap]);
      s := s + Overflow(|names| - cap);
    }
  }

  // ---------------------------------------------------------------- queue view: on duty

  /** The on-duty line: name with phone (no mention), then the queue-button icon. */
  function OnDutyLine(dir: Directory, statuses: map<string, string>, name: string): string
  {
    var status := if name in statuses then statuses[name] else "";
    "• " + FormatNameWithIC(dir, name, false) + OnDutyIcon(status) + "\n"
  }

  function OnDutyLines(dir: Directory, statuses: map<string, string>, names: seq<string>): string
  {
    if names == [] then ""
    else OnDutyLines(dir, statuses, names[..|names| - 1]) + OnDutyLine(dir, statuses, names[|names| - 1])
  }

  method RenderOnDuty(dir: Directory, statuses: map<string, string>, names: seq<string>) returns (s: string)
    ensures s == OnDutyLines(dir, statuses, names)
  {
    s := "";
    for i := 0 to |names|
      invariant s == OnDutyLines(dir, statuses, names[..i])
    {
      assert names[..i + 1][..i] == names[..i];
      s := s + OnDutyLine(dir, statuses, names[i]);
    }
    assert names[..|names|] == names;
  }

  // ---------------------------------------------------------------- queue view: AFK

  /** `Math.floor((now - t) / 60000)`: whole minutes elapsed, rounded down even when negative. */
  function AfkMinutes(now: int, t: int): (m: int)
    ensures m * MinuteMs <= now - t < (m + 1) * MinuteMs
  {
    (now - t) / MinuteMs
  }

  /** The AFK line: the minutes since the recorded time when one is recorded and non-zero. */
  function AfkLine(afkTimes: map<string, int>, now: int, name: string): string
  {
    var since := if name in afkTimes && afkTimes[name] != 0
      then " (" + IntToString(AfkMinutes(now, afkTimes[name])) + " นาที)" else "";
    "• " + name + since + "\n"
  }

  function AfkLines(afkTimes: map<string, int>, now: int, names: seq<string>): string
  {
    if names == [] then ""
    else AfkLines(afkTimes, now, names[..|names| - 1]) + AfkLine(afkTimes, now, names[|names| - 1])
  }

  method RenderAfk(afkTimes: map<string, int>, now: int, names: seq<string>) returns (s: string)
    ensures s == AfkLines(afkTimes, now, names)
  {
    s := "";
    for i := 0 to |names|
      invariant s == AfkLines(afkTimes, now, names[..i])
    {
      assert names[..i + 1][..i] == names[..i];
      s := s + AfkLine(afkTimes, now, names[i]);
    }
    assert names[..|names|] == names;
  }

  // ---------------------------------------------------------------- case blocks

  /** Every name as `formatWithMention` shows it. */
  function Mentions(dir: Directory, names: seq<string>): (r: seq<string>)
    ensures |r| == |names|
    ensures forall i :: 0 <= i < |names| ==> r[i] == FormatWithMention(dir, names[i])
  {
    if names == [] then [] else [FormatWithMention(dir, names[0])] + Mentions(dir, names[1..])
  }

  /** The supporting medics: everyone after the first, mentioned, comma separated. */
  function SupportList(dir: Directory, medics: seq<string>): string
  {
    Join(Mentions(dir, if |medics| > 0 then medics[1..] else []), ", ")
  }

  /** The block of case number `n` in the queue and case views (bot.js:932-943, 1082-1093). */
  function StoryBlock(dir: Directory, c: Case, n: nat): string
  {
    var main := if |c.medics| > 0 && c.medics[0] != "" then FormatWithMention(dir, c.medics[0]) else "ยังไม่มี";
    var support := SupportList(dir, c.medics);
    "**สตอรี่ #" + NatToString(n) + "**" + (if c.closed then " ✅ **Clear**" else "") + " " +
    (if c.startTime != "" then "⏰ " + c.startTime else "") + "\n" +
    "ระหว่าง " + OrElse(c.partyA, "?") + " VS " + OrElse(c.partyB, "?") + "\n" +
    (if c.location != "" then "📍 " + c.location + "\n" else "") +
    "แพทย์ผู้รับผิดชอบ : " + main + "\n" +
    (if support != "" then "แพทย์ช่วยเหลือ : " + support + "\n" else "") +
    "\n"
  }

  /** The blocks of all cases, numbered from 1 in list order. */
  function StoryBlocks(dir: Directory, cases: seq<Case>): string
  {
    if cases == [] then ""
    else StoryBlocks(dir, cases[..|cases| - 1]) + StoryBlock(dir, cases[|cases| - 1], |cases|)
  }

  method RenderStoryBlocks(dir: Directory, cases: seq<Case>) returns (s: string)
    ensures s == StoryBlocks(dir, cases)
  {
    s := "";
    for i := 0 to |cases|
      invariant s == StoryBlocks(dir, cases[..i])
    {
      StoryBlocksExtend(dir, cases, i);
      s := s + StoryBlock(dir, cases[i], i + 1);
    }
    assert cases[..|cases|] == cases;
  }

  /** One more case adds its block, numbered by its position, at the end. */
  lemma StoryBlocksExtend(dir: Directory, cases: seq<Case>, i: nat)
    requires i < |cases|
    ensures StoryBlocks(dir, cases[..i + 1]) == StoryBlocks(dir, cases[..i]) + StoryBlock(dir, cases[i], i + 1)
  {
    assert cases[..i + 1][..i] == cases[..i];
  }

  // ---------------------------------------------------------------- queue view: events

  function EventLine(e: Event): string
  {
    "**" + OrElse(e.emoji, "🎉") + " " + OrElse(e.name, "Event") + "**\n" +
    "ผู้เข้าร่วม: " + OrElse(Join(e.medics, ", "), "ยังไม่มี") + "\n\n"
  }

  function EventLines(events: seq<Event>): string
  {
    if events == [] then "" else EventLines(events[..|events| - 1]) + EventLine(events[|events| - 1])
  }

  method RenderEvents(events: seq<Event>) returns (s: string)
    ensures s == EventLines(events)
  {
    s := "";
    for i := 0 to |events|
      invariant s == EventLines(events[..i])
    {
      assert events[..i + 1][..i] == events[..i];
      s := s + EventLine(events[i]);
    }
    assert events[..|events| ] == events;
  }

  // ---------------------------------------------------------------- the queue view

  /**
   * The cases the queue and case views show: those of the current Bangkok date. The source
   * computes that date with `FilterToday`, which is right only on a UTC host (see
   * `Calendar.FilterTodayLagsOnBangkokHost`); this is the Bangkok date on every host.
   */
  function TodaysCases(data: ShiftData, env: Env): (r: seq<Case>)
    ensures forall i :: 0 <= i < |r| ==> IsToday(r[i], BangkokToday(env.now))
    ensures forall i :: 0 <= i < |data.cases| && IsToday(data.cases[i], BangkokToday(env.now)) ==> data.cases[i] in r
    ensures IsSubsequence(r, data.cases)
    ensures forall c :: multiset(r)[c] == if IsToday(c, BangkokToday(env.now)) then multiset(data.cases)[c] else 0
  {
    FilterTodayItems(data.cases, BangkokToday(env.now))
  }

  function QueueHeader(dir: Directory, data: ShiftData, env: Env): string
  {
    "**สรุปการเข้าเวร OP**\n" + Rule +
    "📅 วันที่: " + env.bangkokDate + "\n" +
    "👤 OP: " + FormatNameWithIC(dir, data.currentOP, true) + "\n" +
    (if data.supOP != "" then "👥 Support OP: " + FormatNameWithIC(dir, data.supOP, true) + "\n" else "") +
    (if data.lastModified.Some? && data.lastModified.value != 0
     then "⏰ เวลา: " + env.timeOf(data.lastModified.value) + "\n" else "") +
    Rule + "\n"
  }

  function QueueBody(onDuty: string, offDuty: string, afk: string, stories: string, events: string,
                     data: ShiftData, storyCount: nat): string
  {
    "✅ **On Duty (" + NatToString(|data.onDuty|) + " คน):**\n" +
    (if |data.onDuty| > 0 then onDuty else NoneLine) + Rule + "\n" +
    "❌ **Off Duty (" + NatToString(|data.offDuty|) + " คน):**\n" +
    (if |data.offDuty| > 0 then offDuty else NoneLine) + Rule + "\n" +
    (if |data.afk| > 0 then "💤 **AFK (" + NatToString(|data.afk|) + " คน):**\n" + afk + Rule + "\n" else "") +
    "⚔️ **สตอรี่ (" + NatToString(storyCount) + " เคส):**\n" +
    (if storyCount > 0 then stories else "_ไม่มีสตอรี่ในขณะนี้_\n") +
    (if |data.activeEvents| > 0
     then Rule + "🎉 **Events (" + NatToString(|data.activeEvents|) + "):**\n" + events else "")
  }

  /** The queue view during a shift (bot.js:846-961). */
  function QueueText(dir: Directory, data: ShiftData, env: Env): string
  {
    var stories := TodaysCases(data, env);
    QueueHeader(dir, data, env) +
    QueueBody(OnDutyLines(dir, data.medicStatuses, data.onDuty), CappedNames(data.offDuty, 20),
              AfkLines(data.afkTimes, env.now, data.afk), StoryBlocks(dir, stories),
              EventLines(data.activeEvents), data, |stories|)
  }

  /** The header does not read the case list. */
  lemma HeaderIgnoresCases(dir: Directory, data: ShiftData, env: Env, cases: seq<Case>)
    ensures QueueHeader(dir, data.(cases := cases), env) == QueueHeader(dir, data, env)
  {
    var other := data.(cases := cases);
    assert other.currentOP == data.currentOP && other.supOP == data.supOP && other.lastModified == data.lastModified;
  }

  /** The body reads the case list only through the rendered case blocks it is given. */
  lemma BodyIgnoresCases(onDuty: string, offDuty: string, afk: string, stories: string, events: string,
                         data: ShiftData, storyCount: nat, cases: seq<Case>)
    ensures QueueBody(onDuty, offDuty, afk, stories, events, data.(cases := cases), storyCount) ==
      QueueBody(onDuty, offDuty, afk, stories, events, data, storyCount)
  {
    var other := data.(cases := cases);
    assert other.onDuty == data.onDuty && other.offDuty == data.offDuty && other.afk == data.afk &&
      other.activeEvents == data.activeEvents;
  }

  /** Cases of other days never reach the queue view: dropping them changes nothing. */
  lemma QueueViewIgnoresOtherDays(dir: Directory, data: ShiftData, env: Env)
    ensures QueueText(dir, data.(cases := TodaysCases(data, env)), env) == QueueText(dir, data, env)
  {
    var stories := TodaysCases(data, env);
    var today := data.(cases := stories);
    FilterIdempotent(data.cases, BangkokToday(env.now));
    assert TodaysCases(today, env) == stories;
    HeaderIgnoresCases(dir, data, env, stories);
    BodyIgnoresCases(OnDutyLines(dir, data.medicStatuses, data.onDuty), CappedNames(data.offDuty, 20),
                     AfkLines(data.afkTimes, env.now, data.afk), StoryBlocks(dir, stories),
                     EventLines(data.activeEvents), data, |stories|, stories);
  }

  method BuildQueueText(dir: Directory, data: ShiftData, env: Env) returns (text: string)
    ensures text == QueueText(dir, data, env)
  {
    var onDuty := RenderOnDuty(dir, data.medicStatuses, data.onDuty);
    var offDuty := RenderCappedNames(data.offDuty, 20);
    var afk := RenderAfk(data.afkTimes, env.now, data.afk);
    var stories := TodaysCases(data, env);
    var blocks := RenderStoryBlocks(dir, stories);
    var events := RenderEvents(data.activeEvents);
    text := QueueHeader(dir, data, env) + QueueBody(onDuty, offDuty, afk, blocks, events, data, |stories|);
  }

  // ---------------------------------------------------------------- the case view

  predicate AllClosed(cases: seq<Case>)
  {
    forall i :: 0 <= i < |cases| ==> cases[i].closed
  }

  const SummaryHeading: string := "**📋 สรุปเคสสตอรี่**\n"
  const NoticeHeading: string := "**📋 แจ้งเคสสตอรี่**\n"

  function StoryViewHeading(batch: seq<Case>): string
  {
    if AllClosed(batch) then SummaryHeading else NoticeHeading
  }

  function StoryViewBody(blocks: string, batch: seq<Case>, dateLabel: string): string
  {
    Rule + "📅 " + dateLabel + "\n" + Rule + "\n" +
    "⚔️ **สตอรี่ (" + NatToString(|batch|) + " เคส):**\n" + blocks
  }

  /** The case view of the current batch (bot.js:1069-1094). */
  function StoryViewText(dir: Directory, batch: seq<Case>, dateLabel: string): string
  {
    StoryViewHeading(batch) + StoryViewBody(StoryBlocks(dir, batch), batch, dateLabel)
  }

  /** A text that begins with a piece as long as `p` starts with `p` exactly when the piece is `p`. */
  lemma StartsWithSameLength(h: string, rest: string, p: string)
    requires |h| == |p|
    ensures StartsWith(h + rest, p) <==> h == p
  {
    assert (h + rest)[..|h|] == h;
  }

  /** The case view is headed as a summary exactly when every case of the batch is closed. */
  lemma SummaryHeadingIffAllClosed(dir: Directory, batch: seq<Case>, dateLabel: string)
    ensures StartsWith(StoryViewText(dir, batch, dateLabel), SummaryHeading) <==> AllClosed(batch)
  {
    assert NoticeHeading != SummaryHeading && |NoticeHeading| == |SummaryHeading| by {
      assert NoticeHeading[5] != SummaryHeading[5];
    }
    StartsWithSameLength(StoryViewHeading(batch), StoryViewBody(StoryBlocks(dir, batch), batch, dateLabel), SummaryHeading);
  }

  /** The label above the case list: from the first case's `storyDate`, else the host's date. */
  function StoryDateLabel(batch: seq<Case>, env: Env): string
  {
    if |batch| > 0 && batch[0].storyDate != "" then env.storyDateLabel(batch[0].storyDate) else env.hostDate
  }

  method BuildStoryViewText(dir: Directory, batch: seq<Case>, dateLabel: string) returns (text: string)
    ensures text == StoryViewText(dir, batch, dateLabel)
  {
    var blocks := RenderStoryBlocks(dir, batch);
    text := StoryViewHeading(batch) + StoryViewBody(blocks, batch, dateLabel);
  }

  // ---------------------------------------------------------------- the shift summary

  /** The heading for a summary's `type` (missing means an ordinary end of shift). */
  function SummaryTypeLabel(kind: string): string
  {
    var k := OrElse(kind, "end_shift");
    if k == "end_shift" then "🏁 จบกะ"
    else if k == "handover" then "🔄 ส่งต่อ OP"
    else if k == "force_end" then "⚠️ บังคับจบกะ"
    else if k == "request" then "📋 Request OP"
    else "📋 สรุปกะ"
  }

  function MemberLine(m: Member): string
  {
    "• " + FormatBadge(m.badge) + " " + m.name + "\n"
  }

  function MemberLines(members: seq<Member>): string
  {
    if members == [] then "" else MemberLines(members[..|members| - 1]) + MemberLine(members[|members| - 1])
  }

  method RenderMembers(members: seq<Member>) returns (s: string)
    ensures s == MemberLines(members)
  {
    s := "";
    for i := 0 to |members|
      invariant s == MemberLines(members[..i])
    {
      assert members[..i + 1][..i] == members[..i];
      s := s + MemberLine(members[i]);
    }
    assert members[..|members|] == members;
  }

  predicate Started(s: SummaryStory)
  {
    s.startTime != "" && s.startTime != "-"
  }

  /** The summary's stories that have a start time: the ones that were started and then closed. */
  function StartedStories(stories: seq<SummaryStory>): (r: seq<SummaryStory>)
    ensures |r| <= |stories|
    ensures forall i :: 0 <= i < |r| ==> Started(r[i]) && r[i] in stories
    ensures forall i :: 0 <= i < |stories| && Started(stories[i]) ==> stories[i] in r
  {
    if stories == [] then []
    else if Started(stories[0]) then [stories[0]] + StartedStories(stories[1..])
    else StartedStories(stories[1..])
  }

  /** The started stories keep their order in the summary and every copy of each. */
  lemma {:induction false} StartedStoriesKeepOrderAndCopies(stories: seq<SummaryStory>)
    ensures IsSubsequence(StartedStories(stories), stories)
    ensures forall s :: multiset(StartedStories(stories))[s] == if Started(s) then multiset(stories)[s] else 0
  {
    if stories != [] {
      StartedStoriesKeepOrderAndCopies(stories[1..]);
      FilterStep(stories, StartedStories(stories[1..]), Started(stories[0]));
    }
  }

  /** `s.medics || s.assignedMedics || []`. */
  function SummaryMedics(s: SummaryStory): seq<string>
  {
    if s.medics.Some? then s.medics.value else if s.assignedMedics.Some? then s.assignedMedics.value else []
  }

  /** The responsible medic, mentioned, or '-' when there is none. */
  function MainMedicOrDash(dir: Directory, medics: seq<string>): string
  {
    if |medics| > 0 && medics[0] != "" && medics[0] != "-" then FormatWithMention(dir, medics[0]) else "-"
  }

  function ClosedStoryBlock(dir: Directory, s: SummaryStory, n: nat): string
  {
    var medics := SummaryMedics(s);
    var support := SupportList(dir, medics);
    "**สตอรี่ #" + NatToString(n) + "** ระหว่าง " + OrElse(s.partyA, "?") + " VS " + OrElse(s.partyB, "?") + "\n" +
    "แพทย์ผู้รับผิดชอบ : " + MainMedicOrDash(dir, medics) + "\n" +
    (if support != "" then "แพทย์ช่วยเหลือ : " + support + "\n" else "") +
    "\n"
  }

  function ClosedStoryBlocks(dir: Directory, stories: seq<SummaryStory>): string
  {
    if stories == [] then ""
    else ClosedStoryBlocks(dir, stories[..|stories| - 1]) + ClosedStoryBlock(dir, stories[|stories| - 1], |stories|)
  }

  method RenderClosedStories(dir: Directory, stories: seq<SummaryStory>) returns (s: string)
    ensures s == ClosedStoryBlocks(dir, stories)
  {
    s := "";
    for i := 0 to |stories|
      invariant s == ClosedStoryBlocks(dir, stories[..i])
    {
      ClosedStoryBlocksExtend(dir, stories, i);
      s := s + ClosedStoryBlock(dir, stories[i], i + 1);
    }
    assert stories[..|stories|] == stories;
  }

  /** One more closed story adds its block, numbered by its position, at the end. */
  lemma ClosedStoryBlocksExtend(dir: Directory, stories: seq<SummaryStory>, i: nat)
    requires i < |stories|
    ensures ClosedStoryBlocks(dir, stories[..i + 1]) == ClosedStoryBlocks(dir, stories[..i]) + ClosedStoryBlock(dir, stories[i], i + 1)
  {
    assert stories[..i + 1][..i] == stories[..i];
  }

  function OngoingLine(s: OngoingStory, n: nat): string
  {
    var main := if |s.medics| > 0 && s.medics[0] != "" then s.medics[0] else "ยังไม่มี";
    "**#" + NatToString(n) + "** " + OrElse(s.partyA, "?") + " VS " + OrElse(s.partyB, "?") +
    (if main != "ยังไม่มี" then " - 👨‍⚕️ " + main else "") + " _(ยังดำเนินอยู่)_\n"
  }

  function OngoingLines(stories: seq<OngoingStory>): string
  {
    if stories == [] then ""
    else OngoingLines(stories[..|stories| - 1]) + OngoingLine(stories[|stories| - 1], |stories|)
  }

  method RenderOngoing(stories: seq<OngoingStory>) returns (s: string)
    ensures s == OngoingLines(stories)
  {
    s := "";
    for i := 0 to |stories|
      invariant s == OngoingLines(stories[..i])
    {
      assert stories[..i + 1][..i] == stories[..i];
      s := s + OngoingLine(stories[i], i + 1);
    }
    assert stories[..|stories|] == stories;
  }

  function SummaryHeader(dir: Directory, s: ShiftSummary, env: Env): string
  {
    var sup := OrElse(s.supOP, "-");
    "**" + SummaryTypeLabel(s.kind) + "**\n" + DoubleRule +
    "📅 วันที่: " + env.hostDate + "\n" +
    "👤 OP: " + FormatWithMention(dir, OrElse(s.op, "ไม่ระบุ")) + "\n" +
    (if sup != "-" then "👥 Support OP: " + FormatWithMention(dir, sup) + "\n" else "") +
    "⏰ เวลา: " + OrElse(s.startTime, "-") + " - " + OrElse(s.endTime, env.bangkokTime) +
    (if s.duration != "" then " (" + s.duration + ")" else "") + "\n" +
    DoubleRule + "\n"
  }

  function SummaryBody(members: string, offDuty: string, closed: string, ongoing: string,
                       s: ShiftSummary, closedCount: nat): string
  {
    "✅ **On Duty (" + NatToString(|s.onDuty|) + " คน):**\n" +
    (if |s.onDuty| > 0 then members else NoneLine) + Rule + "\n" +
    "❌ **Off Duty (" + NatToString(|s.offDuty|) + " คน):**\n" +
    (if |s.offDuty| > 0 then offDuty else NoneLine) + Rule + "\n" +
    "⚔️ **สตอรี่ที่เริ่มแล้ว และ ปิดแล้ว (" + NatToString(closedCount) + " เคส):**\n" +
    (if closedCount > 0 then closed else "_ไม่มีสตอรี่ที่เริ่มแล้วและปิดแล้ว_\n") +
    (if |s.ongoing| > 0
     then "\n⚠️ **สตอรี่ที่ยังดำเนินอยู่ (" + NatToString(|s.ongoing|) + " เคส):**\n" + ongoing else "") +
    "\n════════════════════"
  }

  /** The end-of-shift summary (bot.js:606-732). */
  function SummaryText(dir: Directory, s: ShiftSummary, env: Env): string
  {
    var started := StartedStories(s.stories);
    SummaryHeader(dir, s, env) +
    SummaryBody(MemberLines(s.onDuty), CappedNames(s.offDuty, 15), ClosedStoryBlocks(dir, started),
                OngoingLines(s.ongoing), s, |started|)
  }

  method BuildSummaryText(dir: Directory, s: ShiftSummary, env: Env) returns (text: string)
    ensures text == SummaryText(dir, s, env)
  {
    var members := RenderMembers(s.onDuty);
    var offDuty := RenderCappedNames(s.offDuty, 15);
    var started := StartedStories(s.stories);
    var closed := RenderClosedStories(dir, started);
    var ongoing := RenderOngoing(s.ongoing);
    text := SummaryHeader(dir, s, env) + SummaryBody(members, offDuty, closed, ongoing, s, |started|);
  }

  // ---------------------------------------------------------------- closed-case history

  /** The ward segment; absent when the ward number is unknown. */
  function WardSegment(ward: string): (r: string)
    ensures r == "" <==> ward == "-"
  {
    if ward != "-" then " |  วอ " + ward else ""
  }

  /** The council segment; absent when the council is unknown. */
  function CouncilSegment(council: string): (r: string)
    ensures r == "" <==> council == "-"
  {
    if council != "-" then " | 🏛️ " + council else ""
  }

  /** The one-entry history posted for a closed case (bot.js:556-580). */
  function ClosedCaseText(dir: Directory, c: ClosedCase, env: Env): string
  {
    var closedAt := if c.closedAt != 0 then env.timeOf(c.closedAt) else "-";
    "⚔️ **" + OrElse(c.partyA, "?") + " VS " + OrElse(c.partyB, "?") + "**\n" +
    "📍 " + OrElse(c.location, "-") + " | ⏰ " + OrElse(c.startTime, "-") + "→" + closedAt + "\n" +
    "👨‍⚕️ " + MainMedicOrDash(dir, c.medics) +
    WardSegment(OrElse(OrElse(c.wardNumber, c.ward), "-")) +
    CouncilSegment(OrElse(OrElse(c.council, c.site), "-")) + "\n"
  }
}
