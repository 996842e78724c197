/**
 * Buddhist-calendar date parsing in the bot (discord-bot/bot.js:227-255): "15 ธ.ค. 2568" is
 * 15 December 2025. The model starts from the three groups the source's pattern captures.
 */
module ThaiDate {
  import opened Wrappers
  import opened Text

  /** `THAI_MONTHS`: the abbreviation at index i names JavaScript month i (0 = January). */
  const ThaiMonths: seq<string> :=
    ["ม.ค.", "ก.พ.", "มี.ค.", "เม.ย.", "พ.ค.", "มิ.ย.", "ก.ค.", "ส.ค.", "ก.ย.", "ต.ค.", "พ.ย.", "ธ.ค."]

  /** Buddhist Era years run 543 ahead of the Common Era. */
  const BuddhistEraOffset: int := 543

  function MonthIndexFrom(s: string, i: nat): (r: Option<nat>)
    requires i <= |ThaiMonths|
    ensures r.Some? ==> i <= r.value < |ThaiMonths| && ThaiMonths[r.value] == s
    ensures r.None? ==> forall j :: i <= j < |ThaiMonths| ==> ThaiMonths[j] != s
    decreases |ThaiMonths| - i
  {
    if i == |ThaiMonths| then None
    else if ThaiMonths[i] == s then Some(i)
    else MonthIndexFrom(s, i + 1)
  }

  /** `THAI_MONTHS[s]`: the month an abbreviation names, if any. */
  function MonthIndex(s: string): (r: Option<nat>)
    ensures r.Some? ==> r.value < 12 && ThaiMonths[r.value] == s
    ensures r.None? ==> s !in ThaiMonths
  {
    MonthIndexFrom(s, 0)
  }

  /** No abbreviation is used for two months. */
  lemma ThaiMonthsDistinct()
    ensures forall i, j :: 0 <= i < j < |ThaiMonths| ==> ThaiMonths[i] != ThaiMonths[j]
  {
  }

  /** Every month's abbreviation is recognised as that month. */
  lemma MonthIndexOfName(i: nat)
    requires i < 12
    ensures MonthIndex(ThaiMonths[i]) == Some(i)
  {
    ThaiMonthsDistinct();
  }

  /** The groups of `/(\d{1,2})\s+(\S+\.?)\s+(\d{4})/`: day, month abbreviation, Buddhist year. */
  datatype ThaiDateMatch = ThaiDateMatch(day: string, month: string, year: string)

  /** The shape the pattern guarantees its groups have. */
  predicate WellFormed(g: ThaiDateMatch)
  {
    1 <= |g.day| <= 2 && AllDigits(g.day) && |g.month| >= 1 && |g.year| == 4 && AllDigits(g.year)
  }

  /** The arguments of `new Date(year, month, day)`; month counts from 0 as in JavaScript. */
  datatype DateArgs = DateArgs(year: int, month: int, day: int)

  /**
   * `parseThaiDate(dateStr)`. `found` is None when the input is empty, not a string, or has no
   * match; the result is None then and for an unknown month abbreviation.
   */
  function ParseThaiDate(found: Option<ThaiDateMatch>): (r: Option<DateArgs>)
    requires found.Some? ==> WellFormed(found.value)
    ensures r.Some? ==> found.Some? && 0 <= r.value.month < 12 && r.value.year == DigitsValue(found.value.year) - BuddhistEraOffset
  {
    match found
    case None => None
    case Some(g) =>
      match MonthIndex(g.month)
      case None => None
      case Some(month) => Some(DateArgs(DigitsValue(g.year) - BuddhistEraOffset, month, DigitsValue(g.day)))
  }

  /** Parsing a date written in the bot's format gives back its day, month and Common Era year. */
  lemma ParseWrittenThaiDate(day: nat, month: nat, thaiYear: nat)
    requires 1 <= day < 100 && month < 12 && 1000 <= thaiYear < 10000
    ensures var g := ThaiDateMatch(NatToString(day), ThaiMonths[month], NatToString(thaiYear));
      WellFormed(g) && ParseThaiDate(Some(g)) == Some(DateArgs(thaiYear - BuddhistEraOffset, month, day))
  {
    NatToStringLength(day);
    NatToStringLength(thaiYear);
    DigitsValueOfNatToString(day);
    DigitsValueOfNatToString(thaiYear);
    MonthIndexOfName(month);
  }

  /** An unknown month abbreviation is rejected. */
  lemma UnknownMonthRejected(g: ThaiDateMatch)
    requires WellFormed(g) && g.month !in ThaiMonths
    ensures ParseThaiDate(Some(g)) == None
  {
  }
}
