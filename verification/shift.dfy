/**
 * The live shift document `op_data/current` as the bot reads it (discord-bot/bot.js:808-814,
 * 922-960, 1017), with the defaults the source applies to missing fields already applied:
 * "" stands for a missing or falsy string, [] for a missing list.
 */
module Shift {
  import opened Wrappers

  /** A case's `createdAt`: missing or falsy, a value `new Date` cannot read, or milliseconds. */
  datatype CreatedAt = NoCreatedAt | Unreadable | CreatedMs(ms: int)

  /** One case (`cases[i]`): the two parties, where and when, the medics (first = responsible). */
  datatype Case = Case(
    id: string,
    partyA: string,
    partyB: string,
    location: string,
    startTime: string,
    storyDate: string,
    createdAt: CreatedAt,
    medics: seq<string>,
    closed: bool)

  /** One entry of `activeEvents`. */
  datatype Event = Event(emoji: string, name: string, medics: seq<string>)

  datatype ShiftData = ShiftData(
    currentOP: string,
    supOP: string,
    onDuty: seq<string>,
    offDuty: seq<string>,
    afk: seq<string>,
    afkTimes: map<string, int>,
    lastModified: Option<int>,
    medicStatuses: map<string, string>,
    cases: seq<Case>,
    activeEvents: seq<Event>)

  /** The sentinel for "no operator on shift" (`data.currentOP || 'ไม่มี'`). */
  const NoOperator: string := "ไม่มี"

  /** No active shift: the operator is missing or is the sentinel. */
  predicate IsIdle(data: ShiftData)
  {
    data.currentOP == "" || data.currentOP == NoOperator
  }

  /** One `onDuty` entry of a shift summary: the medic's name and the rank name saved with it. */
  datatype Member = Member(name: string, badge: string)

  /**
   * One entry of a summary's `stories`. `medics` and `assignedMedics` are None when the field is
   * absent; a present empty list still counts as present, as any array does in JavaScript.
   */
  datatype SummaryStory = SummaryStory(
    partyA: string,
    partyB: string,
    startTime: string,
    medics: Option<seq<string>>,
    assignedMedics: Option<seq<string>>)

  /** One entry of a summary's `ongoingStories`. */
  datatype OngoingStory = OngoingStory(partyA: string, partyB: string, medics: seq<string>)

  /** A document of `shift_summaries` (`kind` is its `type` field). */
  datatype ShiftSummary = ShiftSummary(
    op: string,
    supOP: string,
    kind: string,
    startTime: string,
    endTime: string,
    duration: string,
    onDuty: seq<Member>,
    offDuty: seq<string>,
    stories: seq<SummaryStory>,
    ongoing: seq<OngoingStory>)

  /** A document of `closed_cases`; `closedAt` is 0 when missing. */
  datatype ClosedCase = ClosedCase(
    partyA: string,
    partyB: string,
    location: string,
    startTime: string,
    medics: seq<string>,
    wardNumber: string,
    ward: string,
    council: string,
    site: string,
    closedAt: int)
}
