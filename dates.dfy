/**
 * Calendar dates as `datetime.strptime(texto, "%d-%m-%Y").date()` reads them
 * and as `strftime("%d-%m-%Y")` prints them.
 */
module Dates {
  import opened Wrappers

  datatype Date = Date(day: int, month: int, year: int)

  predicate IsLeap(y: int) {
    (y % 4 == 0 && y % 100 != 0) || y % 400 == 0
  }

  function DaysInMonth(m: int, y: int): int {
    if m == 2 then (if IsLeap(y) then 29 else 28)
    else if m == 4 || m == 6 || m == 9 || m == 11 then 30
    else 31
  }

  /** What `datetime.date(year, month, day)` accepts: years 1 to 9999, real days of real months. */
  predicate ValidDate(d: Date) {
    1 <= d.year <= 9999 && 1 <= d.month <= 12 && 1 <= d.day <= DaysInMonth(d.month, d.year)
  }

  /** `a < b` on dates: earlier year, or same year and earlier month, or same month and earlier day. */
  predicate Before(a: Date, b: Date) {
    a.year < b.year
    || (a.year == b.year && (a.month < b.month || (a.month == b.month && a.day < b.day)))
  }

  predicate IsDigit(c: char) { '0' <= c <= '9' }

  predicate IsNonZeroDigit(c: char) { '1' <= c <= '9' }

  function DigitValue(c: char): (n: int)
    requires IsDigit(c)
    ensures 0 <= n <= 9
  {
    c as int - '0' as int
  }

  function DigitChar(n: int): (c: char)
    requires 0 <= n <= 9
    ensures IsDigit(c) && DigitValue(c) == n
  {
    ('0' as int + n) as char
  }

  /** The position of the first `c` in `s`. */
  function IndexOf(s: string, c: char): (r: Option<nat>)
    ensures r.Some? ==> r.value < |s| && s[r.value] == c && c !in s[..r.value]
    ensures r.None? ==> c !in s
  {
    if s == [] then None
    else if s[0] == c then Some(0)
    else match IndexOf(s[1..], c)
      case None => None
      case Some(k) =>
        assert s[..k + 1] == [s[0]] + s[1..][..k];
        Some(k + 1)
  }

  /** `%d`: one of `3[01]`, `[12]\d`, `0[1-9]`, `[1-9]` or a blank then `[1-9]`. */
  function DayToken(t: string): Option<int> {
    if |t| == 1 && IsNonZeroDigit(t[0]) then Some(DigitValue(t[0]))
    else if |t| == 2 && (t[0] == ' ' || t[0] == '0') && IsNonZeroDigit(t[1]) then Some(DigitValue(t[1]))
    else if |t| == 2 && (t[0] == '1' || t[0] == '2') && IsDigit(t[1]) then Some(10 * DigitValue(t[0]) + DigitValue(t[1]))
    else if |t| == 2 && t[0] == '3' && (t[1] == '0' || t[1] == '1') then Some(30 + DigitValue(t[1]))
    else None
  }

  /** `%m`: one of `1[0-2]`, `0[1-9]` or `[1-9]`. */
  function MonthToken(t: string): Option<int> {
    if |t| == 1 && IsNonZeroDigit(t[0]) then Some(DigitValue(t[0]))
    else if |t| == 2 && t[0] == '0' && IsNonZeroDigit(t[1]) then Some(DigitValue(t[1]))
    else if |t| == 2 && t[0] == '1' && '0' <= t[1] <= '2' then Some(10 + DigitValue(t[1]))
    else None
  }

  /** `%Y`: exactly four digits. */
  function YearToken(t: string): Option<int> {
    if |t| == 4 && IsDigit(t[0]) && IsDigit(t[1]) && IsDigit(t[2]) && IsDigit(t[3]) then
      Some(1000 * DigitValue(t[0]) + 100 * DigitValue(t[1]) + 10 * DigitValue(t[2]) + DigitValue(t[3]))
    else None
  }

  /**
   * `datetime.strptime(s, "%d-%m-%Y").date()`, with `None` for its `ValueError`.
   * No field pattern contains `-`, so the two dashes split the text into its
   * three fields; the whole text must be consumed, and the date must exist.
   */
  function ParseDate(s: string): (r: Option<Date>)
    ensures r.Some? ==> ValidDate(r.value)
  {
    match IndexOf(s, '-')
    case None => None
    case Some(a) =>
      var rest := s[a + 1..];
      match IndexOf(rest, '-')
      case None => None
      case Some(b) =>
        match (DayToken(s[..a]), MonthToken(rest[..b]), YearToken(rest[b + 1..]))
        case (Some(d), Some(m), Some(y)) =>
          if ValidDate(Date(d, m, y)) then Some(Date(d, m, y)) else None
        case _ => None
  }

  function Pad2(n: int): (t: string)
    requires 0 <= n <= 99
    ensures |t| == 2 && IsDigit(t[0]) && IsDigit(t[1])
    ensures 10 * DigitValue(t[0]) + DigitValue(t[1]) == n
  {
    [DigitChar(n / 10), DigitChar(n % 10)]
  }

  function Pad4(n: int): (t: string)
    requires 0 <= n <= 9999
    ensures |t| == 4 && IsDigit(t[0]) && IsDigit(t[1]) && IsDigit(t[2]) && IsDigit(t[3])
    ensures 1000 * DigitValue(t[0]) + 100 * DigitValue(t[1]) + 10 * DigitValue(t[2]) + DigitValue(t[3]) == n
  {
    var q1 := n / 10;
    var q2 := q1 / 10;
    var q3 := q2 / 10;
    assert n == 10 * q1 + n % 10 && q1 == 10 * q2 + q1 % 10 && q2 == 10 * q3 + q2 % 10;
    assert 0 <= q3 <= 9;
    [DigitChar(q3), DigitChar(q2 % 10), DigitChar(q1 % 10), DigitChar(n % 10)]
  }

  /** `d.strftime("%d-%m-%Y")`: zero-padded day and month, four-digit year. */
  function FormatDate(d: Date): (s: string)
    requires ValidDate(d)
    ensures |s| == 10 && s[2] == '-' && s[5] == '-'
    ensures forall i :: 0 <= i < 10 && i != 2 && i != 5 ==> IsDigit(s[i])
  {
    Pad2(d.day) + "-" + Pad2(d.month) + "-" + Pad4(d.year)
  }

  lemma DayTokenOfPad2(n: int)
    requires 1 <= n <= 31
    ensures DayToken(Pad2(n)) == Some(n)
  {
  }

  lemma MonthTokenOfPad2(n: int)
    requires 1 <= n <= 12
    ensures MonthToken(Pad2(n)) == Some(n)
  {
  }

  /** A printed date reads back as the same date. */
  lemma ParseFormat(d: Date)
    requires ValidDate(d)
    ensures ParseDate(FormatDate(d)) == Some(d)
  {
    var s := FormatDate(d);
    var dd, mm, yy := Pad2(d.day), Pad2(d.month), Pad4(d.year);
    assert s == dd + "-" + mm + "-" + yy;
    assert IndexOf(s, '-') == Some(2) by {
      assert s[0] == dd[0] && s[1] == dd[1];
    }
    var rest := s[3..];
    assert rest == mm + "-" + yy;
    assert IndexOf(rest, '-') == Some(2) by {
      assert rest[0] == mm[0] && rest[1] == mm[1];
    }
    assert s[..2] == dd;
    assert rest[..2] == mm;
    assert rest[3..] == yy;
    DayTokenOfPad2(d.day);
    MonthTokenOfPad2(d.month);
  }
}
