/**
 * Calendar dates as the bot compares them: `YYYY-MM-DD` strings produced by
 * `Date.prototype.toISOString().split('T')[0]` from integer milliseconds since the epoch.
 */
module Calendar {
  import Text

  const DayMs: int := 86_400_000
  const MinuteMs: int := 60_000
  /** Bangkok is UTC+7 all year. */
  const BangkokOffsetMin: int := 420
  /** The largest magnitude a JavaScript time value may have. */
  const MaxTimeMs: int := 8_640_000_000_000_000

  /** A time value `new Date(t)` accepts (outside this range the date is invalid). */
  predicate ValidTime(t: int) { -MaxTimeMs <= t <= MaxTimeMs }

  datatype CivilDate = CivilDate(year: int, month: int, day: int)

  /** The proleptic Gregorian date of a day count since 1970-01-01 (days-to-civil conversion). */
  function CivilFromDays(days: int): CivilDate
  {
    var z := days + 719468;
    var era := z / 146097;
    var doe := z % 146097;
    var yoe := (doe - doe / 1460 + doe / 36524 - doe / 146096) / 365;
    var y := yoe + era * 400;
    var doy := doe - (365 * yoe + yoe / 4 - yoe / 100);
    var mp := (5 * doy + 2) / 153;
    var d := doy - (153 * mp + 2) / 5 + 1;
    var m := if mp < 10 then mp + 3 else mp - 9;
    CivilDate(if m <= 2 then y + 1 else y, m, d)
  }

  /** `n` in decimal, left-padded with zeros to `width` digits. */
  function PadInt(n: int, width: nat): string
  {
    if n < 0 then Text.IntToString(n)
    else
      var s := Text.NatToString(n);
      if |s| >= width then s else seq(width - |s|, _ => '0') + s
  }

  /** The date part of toISOString: four-digit years, or a signed six-digit year outside 0..9999. */
  function IsoDateString(d: CivilDate): string
  {
    var y :=
      if 0 <= d.year <= 9999 then PadInt(d.year, 4)
      else if d.year < 0 then "-" + PadInt(-d.year, 6)
      else "+" + PadInt(d.year, 6);
    y + "-" + PadInt(d.month, 2) + "-" + PadInt(d.day, 2)
  }

  /** The UTC calendar date of a time value, as `YYYY-MM-DD`. */
  function IsoDateOfMs(t: int): string
  {
    IsoDateString(CivilFromDays(t / DayMs))
  }

  /**
   * The "today" the case filter compares against, as written (discord-bot/bot.js:261-267):
   * `now` shifted by 420 minutes plus `getTimezoneOffset()` (minutes the host is behind UTC),
   * then the UTC date of the result.
   */
  function FilterToday(now: int, localOffsetMin: int): string
  {
    IsoDateOfMs(now + (BangkokOffsetMin + localOffsetMin) * MinuteMs)
  }

  /** The Bangkok calendar date (`toLocaleDateString('en-CA', {timeZone: 'Asia/Bangkok'})`). */
  function BangkokToday(now: int): string
  {
    IsoDateOfMs(now + BangkokOffsetMin * MinuteMs)
  }

  /** The two notions of "today" agree when the host clock runs at UTC. */
  lemma FilterTodayOnUtcHost(now: int)
    ensures FilterToday(now, 0) == BangkokToday(now)
  {
  }

  /** Two instants in the same UTC day have the same date string. */
  lemma SameDaySameDate(t1: int, t2: int)
    requires t1 / DayMs == t2 / DayMs
    ensures IsoDateOfMs(t1) == IsoDateOfMs(t2)
  {
  }

  /** The last character of a date string is the last digit of its day. */
  lemma IsoDateLastDigit(d: CivilDate)
    requires 1 <= d.day <= 9
    ensures var s := IsoDateString(d); |s| > 0 && s[|s| - 1] == Text.DigitChar(d.day)
  {
    var s := IsoDateString(d);
    var y :=
      if 0 <= d.year <= 9999 then PadInt(d.year, 4)
      else if d.year < 0 then "-" + PadInt(-d.year, 6)
      else "+" + PadInt(d.year, 6);
    assert Text.NatToString(d.day) == [Text.DigitChar(d.day)];
    assert PadInt(d.day, 2) == "0" + [Text.DigitChar(d.day)];
    assert s == (y + "-" + PadInt(d.month, 2) + "-") + PadInt(d.day, 2);
  }

  /** Day 0 is 1 January 1970 and day 1 is 2 January 1970. */
  lemma EpochDays()
    ensures CivilFromDays(0) == CivilDate(1970, 1, 1)
    ensures CivilFromDays(1) == CivilDate(1970, 1, 2)
  {
    assert 719468 / 146097 == 4 && 719468 % 146097 == 135080;
    assert 719469 / 146097 == 4 && 719469 % 146097 == 135081;
    assert 135080 / 1460 == 92 && 135080 / 36524 == 3 && 135080 / 146096 == 0;
    assert 135081 / 1460 == 92 && 135081 / 36524 == 3 && 135081 / 146096 == 0;
    assert 134991 / 365 == 369 && 134992 / 365 == 369;
    assert 369 / 4 == 92 && 369 / 100 == 3;
    assert (5 * 306 + 2) / 153 == 10 && (5 * 307 + 2) / 153 == 10;
    assert (153 * 10 + 2) / 5 == 306;
  }

  /** Two dates whose days are different single digits have different date strings. */
  lemma DatesWithDifferentDaysDiffer(d1: CivilDate, d2: CivilDate)
    requires 1 <= d1.day <= 9 && 1 <= d2.day <= 9 && d1.day != d2.day
    ensures IsoDateString(d1) != IsoDateString(d2)
  {
    IsoDateLastDigit(d1);
    IsoDateLastDigit(d2);
    DigitCharInjective(d1.day, d2.day);
  }

  lemma DigitCharInjective(a: nat, b: nat)
    requires a < 10 && b < 10 && a != b
    ensures Text.DigitChar(a) != Text.DigitChar(b)
  {
    assert Text.DigitOf(Text.DigitChar(a)) == a && Text.DigitOf(Text.DigitChar(b)) == b;
  }

  /**
   * On a host whose clock runs at Bangkok time (`getTimezoneOffset()` is -420), between 00:00
   * and 07:00 Bangkok time on 2 January 1970 (17:00 to 24:00 UTC on 1 January) the filter's
   * "today" is still 1 January.
   */
  lemma FilterTodayLagsOnBangkokHost(now: int)
    requires 61_200_000 <= now < DayMs
    ensures FilterToday(now, -420) == IsoDateOfMs(now)
    ensures FilterToday(now, -420) != BangkokToday(now)
  {
    EpochDays();
    assert now / DayMs == 0;
    assert (now + BangkokOffsetMin * MinuteMs) / DayMs == 1;
    DatesWithDifferentDaysDiffer(CivilFromDays(0), CivilFromDays(1));
  }
}
