/**
 * The cloud functions' `parseThaiDate` (functions/index.js:159-171): a numeric date `D/M/Y`
 * (separators `/`, `-` or `.`) whose year may be written with two digits or in the Buddhist era.
 * The regular-expression search is not modelled; the parser starts from the isolated token, or
 * from the absence of one.
 */
module NumericDate {
  import opened Wrappers
  import opened Text
  import opened ThaiDate

  predicate IsSeparator(c: char)
  {
    c == '/' || c == '-' || c == '.'
  }

  /** The token the pattern isolates: day, separator, month, separator, year. */
  datatype DateToken = DateToken(day: string, sep1: char, month: string, sep2: char, year: string)

  /** One or two digits of day and of month, two to four digits of year. */
  predicate WellFormed(t: DateToken)
  {
    AllDigits(t.day) && 1 <= |t.day| <= 2 && IsSeparator(t.sep1) &&
    AllDigits(t.month) && 1 <= |t.month| <= 2 && IsSeparator(t.sep2) &&
    AllDigits(t.year) && 2 <= |t.year| <= 4
  }

  /**
   * The Christian-era year a written year stands for: below 100 it is a year of the 2000s;
   * after that correction, above 2400 it is a Buddhist-era year.
   */
  function NormalizeYear(y: int): (r: int)
    ensures y < 100 ==> r == y + 2000
    ensures 100 <= y <= 2400 ==> r == y
    ensures y > 2400 ==> r == y - BuddhistEraOffset
  {
    var y1 := if y < 100 then y + 2000 else y;
    if y1 > 2400 then y1 - BuddhistEraOffset else y1
  }

  const InvalidFormat: string := "Invalid Date Format"

  /** The arguments of `new Date(year, month, day)`, or the error thrown when no token was found. */
  function ParseNumericDate(found: Option<DateToken>): (r: Result<DateArgs, string>)
    requires found.Some? ==> WellFormed(found.value)
    ensures r.Err? <==> found.None?
    ensures r.Err? ==> r.error == InvalidFormat
    ensures r.Ok? ==>
      100 <= r.value.year <= 9999 - BuddhistEraOffset && -1 <= r.value.month <= 98 && 0 <= r.value.day <= 99
  {
    match found
    case None => Err(InvalidFormat)
    case Some(t) =>
      assert DigitsValue(t.year) <= 9999 by { DigitsBound(t.year); }
      assert DigitsValue(t.month) <= 99 by { DigitsBound(t.month); }
      assert DigitsValue(t.day) <= 99 by { DigitsBound(t.day); }
      Ok(DateArgs(NormalizeYear(DigitsValue(t.year)), DigitsValue(t.month) - 1, DigitsValue(t.day)))
  }

  /** A number of at most four digits is below 10^|s|. */
  lemma {:induction false} DigitsBound(s: string)
    requires AllDigits(s) && |s| <= 4
    ensures |s| <= 2 ==> DigitsValue(s) <= 99
    ensures DigitsValue(s) <= 9999
    ensures |s| < 4 ==> DigitsValue(s) <= 999
    ensures |s| < 2 ==> DigitsValue(s) <= 9
  {
    if s != [] {
      DigitsBound(s[..|s| - 1]);
    }
  }

  /** `k` zero digits. */
  function Zeros(k: nat): (s: string)
    ensures |s| == k && AllDigits(s)
  {
    seq(k, _ => '0')
  }

  /** Leading zeros do not change the value of a digit string. */
  lemma {:induction false} ZerosPrefixValue(k: nat, s: string)
    requires AllDigits(s)
    ensures AllDigits(Zeros(k) + s) && DigitsValue(Zeros(k) + s) == DigitsValue(s)
  {
    var t := Zeros(k) + s;
    if s == [] {
      assert t == Zeros(k);
      ZerosValue(k);
    } else {
      assert t[..|t| - 1] == Zeros(k) + s[..|s| - 1];
      ZerosPrefixValue(k, s[..|s| - 1]);
    }
  }

  lemma {:induction false} ZerosValue(k: nat)
    ensures DigitsValue(Zeros(k)) == 0
  {
    if k > 0 {
      assert Zeros(k)[..k - 1] == Zeros(k - 1);
      ZerosValue(k - 1);
    }
  }

  /** `n` in decimal, left-padded with zeros to at least `width` digits. */
  function Padded(n: nat, width: nat): (s: string)
    ensures AllDigits(s) && DigitsValue(s) == n && |s| >= width
  {
    var digits := NatToString(n);
    DigitsValueOfNatToString(n);
    if |digits| >= width then digits
    else
      ZerosPrefixValue(width - |digits|, digits);
      Zeros(width - |digits|) + digits
  }

  /**
   * The token for a date as a user writes it: any of the three separators, day and month with or
   * without a leading zero, the year padded to `yearWidth` digits.
   */
  function Written(day: nat, month: nat, year: nat, dayWidth: nat, monthWidth: nat, yearWidth: nat,
                   sep1: char, sep2: char): DateToken
  {
    DateToken(Padded(day, dayWidth), sep1, Padded(month, monthWidth), sep2, Padded(year, yearWidth))
  }

  /** A day and a month of one or two digits, written with or without a leading zero. */
  predicate DayMonthWritable(day: nat, month: nat, dayWidth: nat, monthWidth: nat, sep1: char, sep2: char)
  {
    1 <= day <= 31 && 1 <= month <= 12 && dayWidth <= 2 && monthWidth <= 2 && IsSeparator(sep1) && IsSeparator(sep2)
  }

  /** The number of digits of a padded number, for the widths dates are written with. */
  lemma PaddedWidth(n: nat, width: nat)
    ensures n < 100 && width <= 2 ==> 1 <= |Padded(n, width)| <= 2
    ensures n < 100 && width == 2 ==> |Padded(n, width)| == 2
    ensures 1000 <= n < 10000 && width == 4 ==> |Padded(n, width)| == 4
  {
    NatToStringLength(n);
  }

  lemma DayMonthWritten(day: nat, month: nat, dayWidth: nat, monthWidth: nat, sep1: char, sep2: char)
    requires DayMonthWritable(day, month, dayWidth, monthWidth, sep1, sep2)
    ensures 1 <= |Padded(day, dayWidth)| <= 2 && 1 <= |Padded(month, monthWidth)| <= 2
  {
    PaddedWidth(day, dayWidth);
    PaddedWidth(month, monthWidth);
  }

  /** A date written with a four-digit Buddhist-era year reads back as that date in the Christian era. */
  lemma ParseBuddhistYear(day: nat, month: nat, year: nat, dayWidth: nat, monthWidth: nat, sep1: char, sep2: char)
    requires DayMonthWritable(day, month, dayWidth, monthWidth, sep1, sep2) && 2401 <= year <= 9999
    ensures WellFormed(Written(day, month, year, dayWidth, monthWidth, 4, sep1, sep2))
    ensures ParseNumericDate(Some(Written(day, month, year, dayWidth, monthWidth, 4, sep1, sep2))) ==
      Ok(DateArgs(year - BuddhistEraOffset, month - 1, day))
  {
    DayMonthWritten(day, month, dayWidth, monthWidth, sep1, sep2);
    PaddedWidth(year, 4);
    var t := Written(day, month, year, dayWidth, monthWidth, 4, sep1, sep2);
    assert |t.year| == 4 && DigitsValue(t.year) == year;
    assert DigitsValue(t.month) == month && DigitsValue(t.day) == day;
    assert NormalizeYear(year) == year - BuddhistEraOffset;
  }

  /** A date written with a Christian-era year from 1000 to 2400 reads back unchanged. */
  lemma ParseChristianYear(day: nat, month: nat, year: nat, dayWidth: nat, monthWidth: nat, sep1: char, sep2: char)
    requires DayMonthWritable(day, month, dayWidth, monthWidth, sep1, sep2) && 1000 <= year <= 2400
    ensures WellFormed(Written(day, month, year, dayWidth, monthWidth, 4, sep1, sep2))
    ensures ParseNumericDate(Some(Written(day, month, year, dayWidth, monthWidth, 4, sep1, sep2))) ==
      Ok(DateArgs(year, month - 1, day))
  {
    DayMonthWritten(day, month, dayWidth, monthWidth, sep1, sep2);
    PaddedWidth(year, 4);
    var t := Written(day, month, year, dayWidth, monthWidth, 4, sep1, sep2);
    assert |t.year| == 4 && DigitsValue(t.year) == year;
    assert DigitsValue(t.month) == month && DigitsValue(t.day) == day;
    assert NormalizeYear(year) == year;
  }

  /**
   * A two-digit year, "00" to "99", is a year of the 2000s ("07" is 2007), even when it was meant
   * as a Buddhist-era year.
   */
  lemma ParseTwoDigitYear(day: nat, month: nat, year: nat, dayWidth: nat, monthWidth: nat, sep1: char, sep2: char)
    requires DayMonthWritable(day, month, dayWidth, monthWidth, sep1, sep2) && year <= 99
    ensures WellFormed(Written(day, month, year, dayWidth, monthWidth, 2, sep1, sep2))
    ensures ParseNumericDate(Some(Written(day, month, year, dayWidth, monthWidth, 2, sep1, sep2))) ==
      Ok(DateArgs(2000 + year, month - 1, day))
  {
    DayMonthWritten(day, month, dayWidth, monthWidth, sep1, sep2);
    PaddedWidth(year, 2);
    var t := Written(day, month, year, dayWidth, monthWidth, 2, sep1, sep2);
    assert |t.year| == 2 && DigitsValue(t.year) == year;
    assert DigitsValue(t.month) == month && DigitsValue(t.day) == day;
    assert NormalizeYear(year) == 2000 + year;
  }
}
