/**
 * Calendar dates as the source stores them: `YYYY-MM-DD` strings (from the
 * date input, or `toISOString().split('T')[0]`). `new Date("YYYY-MM-DD")` is
 * midnight UTC of that day, and a string with an illegal element is an
 * invalid date, which compares false with everything; here that is `None`.
 */
module Dates {
  import opened Wrappers

  const MsPerDay: int := 24 * 60 * 60 * 1000

  datatype YearMonth = YearMonth(year: int, month: int)
  datatype CivilDate = CivilDate(year: int, month: int, day: int)

  predicate IsDigit(c: char) {
    '0' <= c <= '9'
  }

  function DigitValue(c: char): int
    requires IsDigit(c)
  {
    c as int - '0' as int
  }

  function IsLeapYear(y: int): bool {
    (y % 4 == 0 && y % 100 != 0) || y % 400 == 0
  }

  function DaysInMonth(y: int, m: int): int
    requires 1 <= m <= 12
  {
    if m == 2 then (if IsLeapYear(y) then 29 else 28)
    else if m == 4 || m == 6 || m == 9 || m == 11 then 30
    else 31
  }

  /** A `YYYY-MM` string (the month picker's value, the first seven characters of a date). */
  function ParseYearMonth(s: string): (r: Option<YearMonth>)
    ensures r.Some? ==> 1 <= r.value.month <= 12 && 0 <= r.value.year <= 9999
  {
    if |s| == 7 && IsDigit(s[0]) && IsDigit(s[1]) && IsDigit(s[2]) && IsDigit(s[3])
       && s[4] == '-' && IsDigit(s[5]) && IsDigit(s[6])
    then
      var y := DigitValue(s[0]) * 1000 + DigitValue(s[1]) * 100 + DigitValue(s[2]) * 10 + DigitValue(s[3]);
      var m := DigitValue(s[5]) * 10 + DigitValue(s[6]);
      if 1 <= m <= 12 then Some(YearMonth(y, m)) else None
    else None
  }

  /** A `YYYY-MM-DD` string, or `None` when `new Date(s)` is an invalid date. */
  function ParseIsoDate(s: string): (r: Option<CivilDate>)
    ensures r.Some? ==> |s| == 10 && ParseYearMonth(s[..7]) == Some(YearMonth(r.value.year, r.value.month))
    ensures r.Some? ==> 1 <= r.value.month <= 12 && 1 <= r.value.day <= DaysInMonth(r.value.year, r.value.month)
  {
    if |s| == 10 && s[7] == '-' && IsDigit(s[8]) && IsDigit(s[9]) then
      match ParseYearMonth(s[..7])
      case None => None
      case Some(ym) =>
        var d := DigitValue(s[8]) * 10 + DigitValue(s[9]);
        if 1 <= d <= DaysInMonth(ym.year, ym.month) then Some(CivilDate(ym.year, ym.month, d)) else None
    else None
  }

  /** Days since 1970-01-01 of a proleptic Gregorian date (days-from-civil). */
  function DayNumber(d: CivilDate): int {
    var y := if d.month <= 2 then d.year - 1 else d.year;
    var era := y / 400;
    var yoe := y - era * 400;
    var mp := (d.month + 9) % 12;
    var doy := (153 * mp + 2) / 5 + d.day - 1;
    var doe := yoe * 365 + yoe / 4 - yoe / 100 + doy;
    era * 146097 + doe - 719468
  }

  /** `new Date(s).getTime()` for a date-only string: midnight UTC, in milliseconds. */
  function InstantOf(s: string): Option<int> {
    match ParseIsoDate(s)
    case None => None
    case Some(d) => Some(DayNumber(d) * MsPerDay)
  }

  /** `new Date(s) >= t`: false for an invalid date. */
  predicate OnOrAfter(s: string, t: int) {
    var i := InstantOf(s);
    i.Some? && i.value >= t
  }

  /** Within a month, consecutive days have consecutive day numbers. */
  lemma DayNumberNextDay(y: int, m: int, d: int)
    requires 1 <= m <= 12
    ensures DayNumber(CivilDate(y, m, d + 1)) == DayNumber(CivilDate(y, m, d)) + 1
  {
  }

  /** The epoch is day 0, so "1970-01-01" is instant 0. */
  lemma EpochIsZero()
    ensures InstantOf("1970-01-01") == Some(0)
  {
    var s := "1970-01-01";
    assert s[..7] == "1970-01";
    assert ParseYearMonth(s[..7]) == Some(YearMonth(1970, 1));
    assert ParseIsoDate(s) == Some(CivilDate(1970, 1, 1));
    assert DayNumber(CivilDate(1970, 1, 1)) == 0;
  }

  /**
   * `date.startsWith(month)` for a seven-character month string fixes the
   * calendar month the date parses to: a trip kept by the month filter of
   * the report falls in exactly that month.
   */
  lemma PrefixFixesMonth(month: string, date: string)
    requires |month| == 7 && month <= date
    requires ParseIsoDate(date).Some?
    ensures ParseYearMonth(month) == Some(YearMonth(ParseIsoDate(date).value.year, ParseIsoDate(date).value.month))
  {
    assert date[..7] == month;
  }
}
