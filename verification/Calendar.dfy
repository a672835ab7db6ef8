/** The proleptic Gregorian calendar in whole days since 1970-01-01, as Go's time package has it. */
module Calendar {
  import opened Wrappers

  datatype Date = Date(year: int, month: int, day: int)

  predicate Leap(y: int) { y % 4 == 0 && (y % 100 != 0 || y % 400 == 0) }

  function YearLength(y: int): int { if Leap(y) then 366 else 365 }

  function MonthLength(y: int, m: int): (r: int)
    requires 1 <= m <= 12
    ensures 28 <= r <= 31
  {
    if m == 2 then (if Leap(y) then 29 else 28)
    else if m == 4 || m == 6 || m == 9 || m == 11 then 30
    else 31
  }

  predicate ValidDate(d: Date) { 1 <= d.month <= 12 && 1 <= d.day <= MonthLength(d.year, d.month) }

  /** Days from the first day of year one to the first day of `y`. */
  function BeforeYear(y: int): int {
    365 * (y - 1) + (y - 1) / 4 - (y - 1) / 100 + (y - 1) / 400
  }

  lemma YearSteps(y: int)
    ensures BeforeYear(y + 1) == BeforeYear(y) + YearLength(y)
  {
    DivSteps4(y);
    DivSteps100(y);
    DivSteps400(y);
    assert y % 400 == 0 ==> y % 100 == 0;
    assert y % 100 == 0 ==> y % 4 == 0;
  }

  lemma DivSteps4(y: int)
    ensures y / 4 == (y - 1) / 4 + if y % 4 == 0 then 1 else 0
  {
  }

  lemma DivSteps100(y: int)
    ensures y / 100 == (y - 1) / 100 + if y % 100 == 0 then 1 else 0
  {
  }

  lemma DivSteps400(y: int)
    ensures y / 400 == (y - 1) / 400 + if y % 400 == 0 then 1 else 0
  {
  }

  /** Days from the start of the year to the first of the month. */
  function BeforeMonth(y: int, m: int): (r: int)
    requires 1 <= m <= 13
    ensures 0 <= r <= YearLength(y)
    ensures m == 13 ==> r == YearLength(y)
  {
    var leap := if Leap(y) then 1 else 0;
    if m <= 2 then 31 * (m - 1)
    else leap + [59, 90, 120, 151, 181, 212, 243, 273, 304, 334, 365][m - 3]
  }

  lemma MonthSteps(y: int, m: int)
    requires 1 <= m <= 12
    ensures BeforeMonth(y, m + 1) == BeforeMonth(y, m) + MonthLength(y, m)
  {
  }

  const EPOCH := 719162

  /** The day number of a date. */
  function DayNumber(d: Date): int
    requires 1 <= d.month <= 12
  {
    BeforeYear(d.year) + BeforeMonth(d.year, d.month) + (d.day - 1) - EPOCH
  }

  /** The year a day since year one lies in, by 400-, 100-, 4- and one-year cycles. */
  function YearOf(n: int): (y: int)
    ensures BeforeYear(y) <= n < BeforeYear(y + 1)
  {
    var q400, r400 := n / 146097, n % 146097;
    var q100 := if r400 / 36524 == 4 then 3 else r400 / 36524;
    var r100 := r400 - 36524 * q100;
    var q4, r4 := r100 / 1461, r100 % 1461;
    var q1 := if r4 / 365 == 4 then 3 else r4 / 365;
    var y := 400 * q400 + 100 * q100 + 4 * q4 + q1;
    assert 0 <= q100 <= 3 && 0 <= q4 <= 24 && 0 <= q1 <= 3;
    CycleDays(q400, q100, q4, q1);
    y + 1
  }

  lemma CycleQuotients(q400: int, q100: int, q4: int, q1: int)
    requires 0 <= q100 <= 3 && 0 <= q4 <= 24 && 0 <= q1 <= 3
    ensures var y := 400 * q400 + 100 * q100 + 4 * q4 + q1;
            y / 400 == q400 && y / 100 == 4 * q400 + q100 && y / 4 == 100 * q400 + 25 * q100 + q4
  {
  }

  lemma Whole4(a: int, r: int)
    requires 0 < r <= 4
    ensures (4 * a + r) % 4 == 0 <==> r == 4
  {
  }

  lemma Whole100(a: int, r: int)
    requires 0 < r <= 100
    ensures (100 * a + r) % 100 == 0 <==> r == 100
  {
  }

  lemma Whole400(a: int, r: int)
    requires 0 < r <= 400
    ensures (400 * a + r) % 400 == 0 <==> r == 400
  {
  }

  lemma CycleLeap(q400: int, q100: int, q4: int, q1: int)
    requires 0 <= q100 <= 3 && 0 <= q4 <= 24 && 0 <= q1 <= 3
    ensures Leap(400 * q400 + 100 * q100 + 4 * q4 + q1 + 1) <==> q1 == 3 && (q4 < 24 || q100 == 3)
  {
    Whole4(100 * q400 + 25 * q100 + q4, q1 + 1);
    Whole100(4 * q400 + q100, 4 * q4 + q1 + 1);
    Whole400(q400, 100 * q100 + 4 * q4 + q1 + 1);
  }

  lemma CycleDays(q400: int, q100: int, q4: int, q1: int)
    requires 0 <= q100 <= 3 && 0 <= q4 <= 24 && 0 <= q1 <= 3
    ensures var y := 400 * q400 + 100 * q100 + 4 * q4 + q1;
            && BeforeYear(y + 1) == 146097 * q400 + 36524 * q100 + 1461 * q4 + 365 * q1
            && (Leap(y + 1) <==> q1 == 3 && (q4 < 24 || q100 == 3))
            && BeforeYear(y + 2) == BeforeYear(y + 1) + YearLength(y + 1)
  {
    CycleQuotients(q400, q100, q4, q1);
    CycleLeap(q400, q100, q4, q1);
    YearSteps(400 * q400 + 100 * q100 + 4 * q4 + q1 + 1);
  }

  /** The month a day of the year lies in. */
  function MonthOf(y: int, yday: int, m: int): (r: int)
    requires 1 <= m <= 12 && BeforeMonth(y, m) <= yday < YearLength(y)
    ensures m <= r <= 12 && BeforeMonth(y, r) <= yday < BeforeMonth(y, r + 1)
    decreases 12 - m
  {
    if m < 12 && BeforeMonth(y, m + 1) <= yday then MonthOf(y, yday, m + 1) else m
  }

  /** The date of a day number. */
  function DateOf(n: int): (d: Date)
    ensures ValidDate(d) && DayNumber(d) == n
  {
    var y := YearOf(n + EPOCH);
    YearSteps(y);
    var yday := n + EPOCH - BeforeYear(y);
    var m := MonthOf(y, yday, 1);
    MonthSteps(y, m);
    Date(y, m, yday - BeforeMonth(y, m) + 1)
  }

  lemma {:induction false} YearsGrow(a: int, b: int)
    requires a < b
    ensures BeforeYear(a + 1) <= BeforeYear(b)
    decreases b - a
  {
    if a + 1 < b {
      YearSteps(b - 1);
      YearsGrow(a, b - 1);
    }
  }

  lemma {:induction false} MonthsGrow(y: int, a: int, b: int)
    requires 1 <= a < b <= 13
    ensures BeforeMonth(y, a + 1) <= BeforeMonth(y, b)
    decreases b - a
  {
    if a + 1 < b {
      MonthSteps(y, b - 1);
      MonthsGrow(y, a, b - 1);
    }
  }

  /** A day number belongs to one valid date only. */
  lemma {:induction false} DateUnique(a: Date, b: Date)
    requires ValidDate(a) && ValidDate(b) && DayNumber(a) == DayNumber(b)
    ensures a == b
  {
    MonthSteps(a.year, a.month);
    MonthSteps(b.year, b.month);
    MonthRange(a);
    MonthRange(b);
    if a.year < b.year { YearSteps(a.year); YearsGrow(a.year, b.year); }
    if b.year < a.year { YearSteps(b.year); YearsGrow(b.year, a.year); }
    if a.month < b.month { MonthsGrow(a.year, a.month, b.month); }
    if b.month < a.month { MonthsGrow(a.year, b.month, a.month); }
  }

  lemma MonthRange(d: Date)
    requires ValidDate(d)
    ensures 0 <= BeforeMonth(d.year, d.month) + d.day - 1 < YearLength(d.year)
  {
    MonthSteps(d.year, d.month);
    if d.month < 12 { MonthsGrow(d.year, d.month, 13); }
  }

  // ----- Dates as text --------------------------------------------------------------------------

  function Digits(n: int, width: nat): (s: string)
    requires 0 <= n
    ensures |s| == width && forall i :: 0 <= i < width ==> '0' <= s[i] <= '9'
  {
    if width == 0 then "" else Digits(n / 10, width - 1) + [(n % 10) as char + '0']
  }

  predicate AllDigits(s: string) { forall i :: 0 <= i < |s| ==> '0' <= s[i] <= '9' }

  function Value(s: string): int
    requires AllDigits(s)
  {
    if s == "" then 0 else 10 * Value(s[..|s| - 1]) + (s[|s| - 1] - '0') as int
  }

  function Power10(width: nat): int { if width == 0 then 1 else 10 * Power10(width - 1) }

  lemma {:induction false} ValueOfDigits(n: int, width: nat)
    requires 0 <= n < Power10(width)
    ensures AllDigits(Digits(n, width)) && Value(Digits(n, width)) == n
  {
    if width > 0 { ValueOfDigits(n / 10, width - 1); }
  }

  /** The date written `2006-01-02`. */
  function Format(d: Date): string
    requires ValidDate(d) && 0 <= d.year
  {
    Digits(d.year, 4) + "-" + Digits(d.month, 2) + "-" + Digits(d.day, 2)
  }

  /** Whether the text has the shape `2006-01-02`. */
  predicate DayShape(s: string) {
    |s| == 10 && s[4] == '-' && s[7] == '-' && AllDigits(s[..4]) && AllDigits(s[5..7]) && AllDigits(s[8..])
  }

  /** Reads a date written `2006-01-02`; none when the text is not a date of the calendar. */
  function Parse(s: string): Option<int> {
    if !DayShape(s) then None
    else
      var d := Date(Value(s[..4]), Value(s[5..7]), Value(s[8..]));
      if ValidDate(d) then Some(DayNumber(d)) else None
  }

  lemma {:induction false} ParseFormat(d: Date)
    requires ValidDate(d) && 0 <= d.year < 10000
    ensures Parse(Format(d)) == Some(DayNumber(d))
  {
    FormatFields(d);
    assert Power10(2) == 100 && Power10(4) == 10000 by { assert Power10(1) == 10; assert Power10(3) == 1000; }
    ValueOfDigits(d.year, 4);
    ValueOfDigits(d.month, 2);
    ValueOfDigits(d.day, 2);
  }

  lemma FormatFields(d: Date)
    requires ValidDate(d) && 0 <= d.year
    ensures var s := Format(d);
            DayShape(s) && s[..4] == Digits(d.year, 4) && s[5..7] == Digits(d.month, 2) && s[8..] == Digits(d.day, 2)
  {
    Fields(Digits(d.year, 4), Digits(d.month, 2), Digits(d.day, 2));
  }

  lemma Fields(y: string, m: string, d: string)
    requires |y| == 4 && |m| == 2 && |d| == 2 && AllDigits(y) && AllDigits(m) && AllDigits(d)
    ensures var s := y + "-" + m + "-" + d; DayShape(s) && s[..4] == y && s[5..7] == m && s[8..] == d
  {
    var s := y + "-" + m + "-" + d;
    assert s[..4] == y;
    assert s[5..7] == m;
    assert s[8..] == d;
  }
}
