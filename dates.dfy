/** Calendar dates in the `YYYY-MM-DD` form `parse_date` reads
    (`datetime.strptime(date, "%Y-%m-%d")`) and `strftime` writes, and the
    comparisons `main` makes between them. */
module Dates {
  import opened Wrappers
  import opened Numerals

  datatype Date = Date(year: int, month: int, day: int)

  /** A point in time: a date and the microseconds since its midnight. */
  datatype DateTime = DateTime(date: Date, micros: nat)

  predicate IsLeapYear(y: int)
  {
    y % 4 == 0 && (y % 100 != 0 || y % 400 == 0)
  }

  function DaysInMonth(y: int, m: int): int
  {
    if m == 2 then (if IsLeapYear(y) then 29 else 28)
    else if m == 4 || m == 6 || m == 9 || m == 11 then 30
    else 31
  }

  /** The dates `datetime` can represent: years 1 to 9999. */
  predicate ValidDate(d: Date)
  {
    1 <= d.year <= 9999 && 1 <= d.month <= 12 && 1 <= d.day <= DaysInMonth(d.year, d.month)
  }

  predicate ValidDateTime(t: DateTime)
  {
    ValidDate(t.date) && t.micros < 86400 * 1000000
  }

  /** The calendar order on dates. */
  predicate Before(a: Date, b: Date)
  {
    a.year < b.year
    || (a.year == b.year && a.month < b.month)
    || (a.year == b.year && a.month == b.month && a.day < b.day)
  }

  /** `a > b` on `datetime` values. */
  predicate Later(a: DateTime, b: DateTime)
  {
    Before(b.date, a.date) || (a.date == b.date && a.micros > b.micros)
  }

  /** What `strptime` returns for a date: its midnight. */
  function Midnight(d: Date): DateTime
  {
    DateTime(d, 0)
  }

  /** `strftime("%Y-%m-%d")`. */
  function FormatDate(d: Date): string
    requires ValidDate(d)
  {
    Digits(d.year, 4) + "-" + Digits(d.month, 2) + "-" + Digits(d.day, 2)
  }

  /** `strptime(s, "%Y-%m-%d")` on the zero-padded form: `None` where
      `strptime` raises `ValueError`. */
  function ParseDate(s: string): Option<Date>
  {
    if |s| == 10 && s[4] == '-' && s[7] == '-'
       && AllDigits(s[..4]) && AllDigits(s[5..7]) && AllDigits(s[8..])
    then
      var d := Date(ParseDigits(s[..4]), ParseDigits(s[5..7]), ParseDigits(s[8..]));
      if ValidDate(d) then Some(d) else None
    else None
  }

  /** Where the three numerals sit in a `YYYY-MM-DD` string. */
  lemma FieldsAt(y: string, m: string, d: string)
    requires |y| == 4 && |m| == 2 && |d| == 2
    ensures var s := y + "-" + m + "-" + d;
      |s| == 10 && s[4] == '-' && s[7] == '-' && s[..4] == y && s[5..7] == m && s[8..] == d
  {
    var s := y + "-" + m + "-" + d;
    assert forall i :: 0 <= i < 4 ==> s[i] == y[i];
    assert forall i :: 0 <= i < 2 ==> s[5 + i] == m[i] && s[8 + i] == d[i];
  }

  /** Reading back what `strftime` wrote gives the date. */
  lemma ParseFormatDate(d: Date)
    requires ValidDate(d)
    ensures ParseDate(FormatDate(d)) == Some(d)
  {
    var y, m, dd := Digits(d.year, 4), Digits(d.month, 2), Digits(d.day, 2);
    FieldsAt(y, m, dd);
    ParseDigitsOfDigits(d.year, 4);
    ParseDigitsOfDigits(d.month, 2);
    ParseDigitsOfDigits(d.day, 2);
  }

  /** The only strings read as a date are the ones `strftime` writes for
      it. */
  lemma FormatParseDate(s: string)
    requires ParseDate(s).Some?
    ensures ValidDate(ParseDate(s).value) && FormatDate(ParseDate(s).value) == s
  {
    DigitsOfParseDigits(s[..4]);
    DigitsOfParseDigits(s[5..7]);
    DigitsOfParseDigits(s[8..]);
    FieldsAt(s[..4], s[5..7], s[8..]);
    assert s == s[..4] + "-" + s[5..7] + "-" + s[8..];
  }

  /** A date's midnight is later than a moment exactly when the date comes
      after the moment's date. */
  lemma MidnightLaterIff(d: Date, now: DateTime)
    ensures Later(Midnight(d), now) <==> Before(now.date, d)
  {
  }
}
