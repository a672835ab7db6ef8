/** Quota periods: authz/authorizer.go, periodStart and periodNext, and the rounding of the
    Retry-After advice in authz/server.go. Instants are nanoseconds since 1970-01-01 UTC. */
module Period {
  import opened Calendar

  /** The instant a day starts at. */
  function Midnight(day: int): int { day * 86_400_000_000_000 }

  function DayOf(now: int): int { now / 86_400_000_000_000 }

  function Seconds(n: int): int { n * 1_000_000_000 }

  /** How long a floor is kept: forty days. */
  const FLOOR_RETENTION := 3_456_000_000_000_000

  /** Go's weekday, zero for Sunday; day zero was a Thursday. */
  function Weekday(day: int): int { (day + 4) % 7 }

  /** The day the calendar period containing `now` starts on; weeks start on Monday. */
  function StartDay(day: int, period: string): int {
    if period == "week" then day - (Weekday(day) + 6) % 7
    else if period == "month" then var d := DateOf(day); DayNumber(d.(day := 1))
    else day
  }

  function PeriodStart(now: int, period: string): int { Midnight(StartDay(DayOf(now), period)) }

  /** The day the period after the one starting on `start` starts on. */
  function NextDay(start: int, period: string): int {
    if period == "week" then start + 7
    else if period == "month" then
      var d := DateOf(start);
      DayNumber(if d.month == 12 then Date(d.year + 1, 1, d.day) else Date(d.year, d.month + 1, d.day))
    else start + 1
  }

  function PeriodNext(now: int, period: string): int {
    Midnight(NextDay(DayOf(PeriodStart(now, period)), period))
  }

  /** The first of a date's month has that date. */
  lemma FirstDated(d: Date)
    requires ValidDate(d)
    ensures DateOf(DayNumber(d.(day := 1))) == d.(day := 1)
  {
    DateUnique(DateOf(DayNumber(d.(day := 1))), d.(day := 1));
  }

  /** The first of the month after. */
  function NextMonth(d: Date): Date
    requires 1 <= d.month <= 12
  {
    if d.month == 12 then Date(d.year + 1, 1, 1) else Date(d.year, d.month + 1, 1)
  }

  /** The first of the next month comes after all days of this one. */
  lemma NextFirst(d: Date)
    requires ValidDate(d) && d.day == 1
    ensures DayNumber(NextMonth(d)) == DayNumber(d) + MonthLength(d.year, d.month)
  {
    MonthSteps(d.year, d.month);
    YearSteps(d.year);
  }

  lemma NextDayIs(start: int)
    requires DateOf(start).day == 1
    ensures NextDay(start, "month") == DayNumber(NextMonth(DateOf(start)))
  {
  }

  lemma MonthSpan(day: int)
    ensures var d := DateOf(day);
            var first := DayNumber(d.(day := 1));
            && DateOf(first) == d.(day := 1)
            && first <= day < first + MonthLength(d.year, d.month)
            && NextDay(first, "month") == first + MonthLength(d.year, d.month)
  {
    var d := DateOf(day).(day := 1);
    FirstDated(DateOf(day));
    NextFirst(d);
    NextDayIs(DayNumber(d));
  }

  /** Every day of a month has the month's first day as its start. */
  lemma MonthShared(day: int, other: int)
    requires StartDay(day, "month") <= other < NextDay(StartDay(day, "month"), "month")
    ensures StartDay(other, "month") == StartDay(day, "month")
  {
    MonthSpan(day);
    var d := DateOf(day);
    var first := DayNumber(d.(day := 1));
    DateUnique(DateOf(other), d.(day := other - first + 1));
  }

  lemma StartDayFacts(day: int, period: string)
    ensures var start := StartDay(day, period);
            var next := NextDay(start, period);
            start <= day < next <= start + 31 && next <= day + 31
  {
    if period == "month" { MonthSpan(day); }
  }

  lemma StartDayShared(day: int, other: int, period: string)
    requires StartDay(day, period) <= other < NextDay(StartDay(day, period), period)
    ensures StartDay(other, period) == StartDay(day, period)
  {
    if period == "month" { MonthShared(day, other); }
  }

  lemma NextDayStarts(day: int, period: string)
    ensures var next := NextDay(StartDay(day, period), period); StartDay(next, period) == next
  {
    if period == "month" {
      StartIsFirst(day);
      NextOfFirst(StartDay(day, "month"));
    }
  }

  lemma StartIsFirst(day: int)
    ensures DateOf(StartDay(day, "month")).day == 1
  {
    FirstDated(DateOf(day));
  }

  lemma NextOfFirst(start: int)
    requires DateOf(start).day == 1
    ensures var next := NextDay(start, "month"); StartDay(next, "month") == next
  {
    NextDayIs(start);
    FirstStarts(NextMonth(DateOf(start)));
  }

  /** The first of a month is the start of it. */
  lemma FirstStarts(e: Date)
    requires 1 <= e.month <= 12 && e.day == 1
    ensures StartDay(DayNumber(e), "month") == DayNumber(e)
  {
    DateUnique(DateOf(DayNumber(e)), e);
  }

  lemma DayBounds(now: int, a: int, b: int)
    ensures Midnight(a) <= now < Midnight(b) <==> a <= DayOf(now) < b
  {
  }

  /** Every instant lies in its period, which is at most 31 days long and is followed at once by
      the next period. */
  lemma {:induction false} PeriodContains(now: int, period: string)
    ensures PeriodStart(now, period) <= now < PeriodNext(now, period) <= PeriodStart(now, period) + Midnight(31)
    ensures PeriodStart(PeriodNext(now, period), period) == PeriodNext(now, period)
  {
    var day := DayOf(now);
    var start := StartDay(day, period);
    var next := NextDay(start, period);
    StartDayFacts(day, period);
    DayBounds(now, start, next);
    DayOfStart(start);
    NextDayStarts(day, period);
    DayOfStart(next);
  }

  lemma DayOfStart(a: int)
    ensures DayOf(Midnight(a)) == a
  {
  }

  /** All instants of a period share its start and its end. */
  lemma {:induction false} PeriodShared(now: int, other: int, period: string)
    requires PeriodStart(now, period) <= other < PeriodNext(now, period)
    ensures PeriodStart(other, period) == PeriodStart(now, period) && PeriodNext(other, period) == PeriodNext(now, period)
  {
    var start := StartDay(DayOf(now), period);
    DayBounds(other, start, NextDay(start, period));
    DayOfStart(start);
    StartDayShared(DayOf(now), DayOf(other), period);
  }

  /** A later instant never lies in an earlier period. */
  lemma {:induction false} PeriodMonotone(a: int, b: int, period: string)
    requires a <= b
    ensures PeriodStart(a, period) <= PeriodStart(b, period)
  {
    PeriodContains(a, period);
    PeriodContains(b, period);
    if PeriodStart(b, period) < PeriodStart(a, period) { PeriodShared(b, a, period); }
  }

  /** A day old enough to have its floor pruned lies in no period counted then or later. */
  lemma {:induction false} PrunedIsUncounted(dayStart: int, prunedAt: int, now: int, period: string)
    requires dayStart < prunedAt - FLOOR_RETENTION && prunedAt <= now
    ensures dayStart < PeriodStart(now, period)
  {
    PeriodContains(now, period);
  }

  /** The whole seconds of a Retry-After advice, rounded up; the division truncates. */
  function RetryAfterSeconds(retryAfter: int): int
    requires retryAfter > 0
  {
    (retryAfter + 1_000_000_000 - 1) / 1_000_000_000
  }

  /** A client that waits the advised seconds is in the next period, and one that waits fewer whole
      seconds is not. */
  lemma {:induction false} RetryAfterLands(now: int, period: string, seconds: int)
    ensures PeriodNext(now, period) - now > 0
    ensures seconds >= RetryAfterSeconds(PeriodNext(now, period) - now)
            <==> now + Seconds(seconds) >= PeriodNext(now, period)
    ensures seconds == RetryAfterSeconds(PeriodNext(now, period) - now) ==>
              PeriodStart(now + Seconds(seconds), period) == PeriodNext(now, period)
  {
    PeriodContains(now, period);
    var next := PeriodNext(now, period);
    if seconds == RetryAfterSeconds(next - now) {
      PeriodContains(next, period);
      var after := PeriodNext(next, period);
      assert next <= now + Seconds(seconds) < next + Seconds(1);
      assert after >= next + Midnight(1) by { DayGap(next, period); }
      PeriodShared(next, now + Seconds(seconds), period);
    }
  }

  lemma DayGap(now: int, period: string)
    ensures PeriodNext(now, period) >= PeriodStart(now, period) + Midnight(1)
  {
    StartDayFacts(DayOf(now), period);
    DayOfStart(StartDay(DayOf(now), period));
  }
}
