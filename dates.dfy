/**
 * Calendar dates and times of day as the scripts use them: comparison of
 * `.dt.date` values, `hoje + timedelta(days=1)`, and the `strftime`
 * layouts '%d/%m/%Y' (alert lines), '%Y-%m-%d' and '%H:%M' (saved form).
 */
module Dates {
  import opened Wrappers
  import opened Text

  datatype Date = Date(year: int, month: int, day: int)

  predicate IsLeapYear(y: int)
  {
    y % 4 == 0 && (y % 100 != 0 || y % 400 == 0)
  }

  function DaysInMonth(y: int, m: int): int
    requires 1 <= m <= 12
  {
    if m == 2 then (if IsLeapYear(y) then 29 else 28)
    else if m == 4 || m == 6 || m == 9 || m == 11 then 30
    else 31
  }

  /** A date Python's `datetime.date` can hold (years 1 to 9999); a superset of the
      days a parsed cell can hold, since a pandas Timestamp spans only about 1677 to 2262. */
  predicate ValidDate(d: Date)
  {
    1 <= d.year <= 9999 && 1 <= d.month <= 12 && 1 <= d.day <= DaysInMonth(d.year, d.month)
  }

  /** A calendar day: covers what a parsed cell or `datetime.now().date()` yields. */
  type Day = d: Date | ValidDate(d) witness Date(2000, 1, 1)

  /** `a < b` on dates: chronological order. */
  predicate Before(a: Date, b: Date)
  {
    a.year < b.year
    || (a.year == b.year && a.month < b.month)
    || (a.year == b.year && a.month == b.month && a.day < b.day)
  }

  /** The day after `d`, i.e. `d + timedelta(days=1)`. */
  function NextDay(d: Day): (n: Date)
    ensures Before(d, n)
    ensures d != Date(9999, 12, 31) ==> ValidDate(n)
  {
    if d.day < DaysInMonth(d.year, d.month) then Date(d.year, d.month, d.day + 1)
    else if d.month < 12 then Date(d.year, d.month + 1, 1)
    else Date(d.year + 1, 1, 1)
  }

  /** No calendar day lies strictly between a day and the next one. */
  lemma NextDayIsSuccessor(d: Day, x: Day)
    ensures Before(d, x) <==> !Before(x, NextDay(d))
  {
  }

  /** `strftime('%d/%m/%Y')`. */
  function FormatDMY(d: Day): string
  {
    PadDigits(d.day, 2) + "/" + PadDigits(d.month, 2) + "/" + PadDigits(d.year, 4)
  }

  /** The DD/MM/YYYY text of a day spells that day's fields back. */
  lemma FormatDMYReadsBack(d: Day)
    ensures var s := FormatDMY(d);
            |s| == 10 && s[2] == '/' && s[5] == '/'
            && AllDigits(s[..2]) && AllDigits(s[3..5]) && AllDigits(s[6..])
            && DigitsValue(s[..2]) == d.day
            && DigitsValue(s[3..5]) == d.month
            && DigitsValue(s[6..]) == d.year
  {
    var s := FormatDMY(d);
    assert s[..2] == PadDigits(d.day, 2);
    assert s[3..5] == PadDigits(d.month, 2);
    assert s[6..] == PadDigits(d.year, 4);
  }

  /** `strftime('%Y-%m-%d')`, the ISO form the dashboard saves. */
  function FormatIso(d: Day): string
  {
    PadDigits(d.year, 4) + "-" + PadDigits(d.month, 2) + "-" + PadDigits(d.day, 2)
  }

  /** A strict reader of the YYYY-MM-DD text the dashboard saves: None for any other
      text or an impossible date (pandas' own reader accepts more layouts). */
  function ParseIso(s: string): (r: Option<Day>)
  {
    if |s| == 10 && s[4] == '-' && s[7] == '-'
       && AllDigits(s[..4]) && AllDigits(s[5..7]) && AllDigits(s[8..]) then
      var d := Date(DigitsValue(s[..4]), DigitsValue(s[5..7]), DigitsValue(s[8..]));
      if ValidDate(d) then Some(d) else None
    else
      None
  }

  /** A saved date is read back as the same day. */
  lemma ParseFormatIso(d: Day)
    ensures ParseIso(FormatIso(d)) == Some(d)
  {
    var s := FormatIso(d);
    assert s[..4] == PadDigits(d.year, 4);
    assert s[5..7] == PadDigits(d.month, 2);
    assert s[8..] == PadDigits(d.day, 2);
  }

  /** Every text the strict ISO reader accepts is exactly that day's ISO form. */
  lemma FormatParseIso(s: string, d: Day)
    requires ParseIso(s) == Some(d)
    ensures FormatIso(d) == s
  {
    PadDigitsOfValue(s[..4]);
    PadDigitsOfValue(s[5..7]);
    PadDigitsOfValue(s[8..]);
    assert s == s[..4] + "-" + s[5..7] + "-" + s[8..];
  }

  datatype Time = Time(hour: int, minute: int)

  predicate ValidTime(t: Time) { 0 <= t.hour < 24 && 0 <= t.minute < 60 }

  /** A time of day as `st.time_input` yields it. */
  type Clock = t: Time | ValidTime(t) witness Time(0, 0)

  /** `strftime('%H:%M')`: seconds are dropped. */
  function FormatHM(t: Clock): string
  {
    PadDigits(t.hour, 2) + ":" + PadDigits(t.minute, 2)
  }

  /** The HH:MM text of a time spells its hour and minute back. */
  lemma FormatHMReadsBack(t: Clock)
    ensures var s := FormatHM(t);
            |s| == 5 && s[2] == ':' && AllDigits(s[..2]) && AllDigits(s[3..])
            && DigitsValue(s[..2]) == t.hour && DigitsValue(s[3..]) == t.minute
  {
    var s := FormatHM(t);
    assert s[..2] == PadDigits(t.hour, 2);
    assert s[3..] == PadDigits(t.minute, 2);
  }
}
