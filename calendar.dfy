/** Calendar dates as the ledger sees them.

    A date is the `YYYY-MM-DD` value of a date field. JavaScript parses such a
    string as midnight UTC of that day, so two dates compare by their day
    number, and a date lies in a time window when its midnight timestamp (the
    day number times the length of a day in milliseconds) does. The model
    takes the browser's local time zone to be UTC. */
module Calendar {

  datatype Date = Date(year: int, month: int, day: int)

  /** Milliseconds in one day. */
  const MsPerDay: int := 86_400_000

  /** A Gregorian leap year. */
  function IsLeapYear(year: int): bool
  {
    year % 4 == 0 && (year % 100 != 0 || year % 400 == 0)
  }

  function DaysInMonth(year: int, month: int): int
  {
    if month == 2 then (if IsLeapYear(year) then 29 else 28)
    else if month == 4 || month == 6 || month == 9 || month == 11 then 30
    else 31
  }

  /** A date a date field can hold. */
  predicate ValidDate(d: Date)
  {
    1 <= d.month <= 12 && 1 <= d.day <= DaysInMonth(d.year, d.month)
  }

  /** Days since 1970-01-01 in the proleptic Gregorian calendar: the key by
      which `new Date(a.date) - new Date(b.date)` orders entries. */
  function DayNumber(d: Date): int
  {
    var y := if d.month <= 2 then d.year - 1 else d.year;
    var mp := if d.month > 2 then d.month - 3 else d.month + 9;
    DaysToMarch(y) + MonthStart(mp) + d.day - 1 - 719468
  }

  /** The days from March 1 to the first day of March-based month `mp`
      (0 for March, 11 for February). */
  function MonthStart(mp: int): int
  {
    (153 * mp + 2) / 5
  }

  /** The UTC timestamp, in milliseconds, of the date's midnight. */
  function Timestamp(d: Date): int
  {
    DayNumber(d) * MsPerDay
  }

  /** A moment: a calendar day and the milliseconds elapsed since its midnight. */
  datatype Instant = Instant(date: Date, millis: int)

  /** The timestamp of the moment `days` calendar days before `now`, at the same
      time of day (what `now.setDate(now.getDate() - days)` yields in UTC). */
  function DaysBefore(now: Instant, days: int): int
  {
    (DayNumber(now.date) - days) * MsPerDay + now.millis
  }

  /** Going back further moves the moment back by whole days, so a cutoff
      further back lies earlier by exactly the days between. */
  lemma DaysBeforeFurther(now: Instant, n: int, m: int)
    ensures DaysBefore(now, n) - DaysBefore(now, m) == (m - n) * MsPerDay
  {
  }

  /** A date lies at or after the moment `days` days before `now` exactly when it
      falls strictly after the day `days` days back, or on that day when now is
      exactly midnight: at any other time of day the day itself is excluded. */
  lemma AtOrAfterDaysBefore(d: Date, now: Instant, days: int)
    requires 0 <= now.millis < MsPerDay
    ensures Timestamp(d) >= DaysBefore(now, days) <==>
              DayNumber(d) > DayNumber(now.date) - days
              || (now.millis == 0 && DayNumber(d) == DayNumber(now.date) - days)
  {
    var a := DayNumber(d) - (DayNumber(now.date) - days);
    assert Timestamp(d) - DaysBefore(now, days) == a * MsPerDay - now.millis;
    if a >= 1 {
      assert a * MsPerDay >= MsPerDay;
    } else if a <= -1 {
      assert a * MsPerDay <= -MsPerDay;
    }
  }

  /** The calendar day after a valid date. */
  function NextDay(d: Date): (n: Date)
    requires ValidDate(d)
    ensures ValidDate(n)
  {
    if d.day < DaysInMonth(d.year, d.month) then Date(d.year, d.month, d.day + 1)
    else if d.month < 12 then Date(d.year, d.month + 1, 1)
    else Date(d.year + 1, 1, 1)
  }

  /** The days from the start of era 0 to March 1 of (March-based) year `y`. */
  function DaysToMarch(y: int): int
  {
    var era := y / 400;
    var yoe := y - era * 400;
    era * 146097 + DaysInEra(yoe)
  }

  /** The days from the start of an era to March 1 of its year `yoe`. */
  function DaysInEra(yoe: int): int
  {
    yoe * 365 + yoe / 4 - yoe / 100
  }

  /** The March-based year ending with February of year `y` has 366 days in a
      leap year and 365 otherwise. */
  lemma DaysToMarchStep(y: int)
    ensures DaysToMarch(y) == DaysToMarch(y - 1) + (if IsLeapYear(y) then 366 else 365)
  {
    if y % 400 == 0 {
      EraStartStep(y);
    } else {
      WithinEraStep(y);
    }
  }

  lemma EraStartStep(y: int)
    requires y % 400 == 0
    ensures IsLeapYear(y)
    ensures DaysToMarch(y) == DaysToMarch(y - 1) + 366
  {
    var era := y / 400;
    assert y == 400 * era;
    assert (y - 1) / 400 == era - 1;
  }

  lemma WithinEraStep(y: int)
    requires y % 400 != 0
    ensures DaysToMarch(y) == DaysToMarch(y - 1) + (if IsLeapYear(y) then 366 else 365)
  {
    var era, yoe := y / 400, y % 400;
    assert y == era * 400 + yoe;
    PreviousYearSameEra(y);
    LeapByYearOfEra(era, yoe);
    EraYearStep(yoe);
  }

  lemma PreviousYearSameEra(y: int)
    requires y % 400 != 0
    ensures DaysToMarch(y) == (y / 400) * 146097 + DaysInEra(y % 400)
    ensures DaysToMarch(y - 1) == (y / 400) * 146097 + DaysInEra(y % 400 - 1)
  {
    assert (y - 1) / 400 == y / 400;
  }

  /** One more year within an era adds a leap day every fourth year except at
      whole centuries. */
  lemma EraYearStep(yoe: int)
    requires 0 < yoe < 400
    ensures DaysInEra(yoe) == DaysInEra(yoe - 1) + (if yoe % 4 == 0 && yoe % 100 != 0 then 366 else 365)
  {
    DivStep(yoe);
  }

  /** Whether a year is a leap year depends only on its place in its 400-year era. */
  lemma LeapByYearOfEra(era: int, yoe: int)
    requires 0 <= yoe < 400
    ensures IsLeapYear(era * 400 + yoe) <==> yoe % 4 == 0 && (yoe % 100 != 0 || yoe == 0)
  {
    var y := era * 400 + yoe;
    assert y == 4 * (era * 100 + yoe / 4) + yoe % 4;
    RemainderBy4(era * 100 + yoe / 4, yoe % 4);
    assert y == 100 * (era * 4 + yoe / 100) + yoe % 100;
    RemainderBy100(era * 4 + yoe / 100, yoe % 100);
    RemainderBy400(era, yoe);
  }

  lemma RemainderBy4(q: int, r: int)
    requires 0 <= r < 4
    ensures (4 * q + r) % 4 == r
  {
  }

  lemma RemainderBy100(q: int, r: int)
    requires 0 <= r < 100
    ensures (100 * q + r) % 100 == r
  {
  }

  lemma RemainderBy400(q: int, r: int)
    requires 0 <= r < 400
    ensures (400 * q + r) % 400 == r
  {
  }

  lemma DivStep(x: int)
    requires x >= 1
    ensures x / 4 - (x - 1) / 4 == if x % 4 == 0 then 1 else 0
    ensures x / 100 - (x - 1) / 100 == if x % 100 == 0 then 1 else 0
  {
  }

  /** The first day of each March-based month, counted from March 1. */
  lemma MonthStarts(mp: int)
    requires 0 <= mp < 12
    ensures MonthStart(mp) == [0, 31, 61, 92, 122, 153, 184, 214, 245, 275, 306, 337][mp]
  {
  }

  /** Consecutive dates have consecutive day numbers, so ordering entries by
      day number orders them by calendar date. */
  lemma DayNumberNextDay(d: Date)
    requires ValidDate(d)
    ensures DayNumber(NextDay(d)) == DayNumber(d) + 1
  {
    if d.day < DaysInMonth(d.year, d.month) {
      NextDayInMonth(d);
    } else if d.month == 2 {
      NextDayMarch(d);
    } else {
      NextDayNewMonth(d);
    }
  }

  lemma NextDayInMonth(d: Date)
    requires ValidDate(d) && d.day < DaysInMonth(d.year, d.month)
    ensures DayNumber(NextDay(d)) == DayNumber(d) + 1
  {
  }

  /** From the last day of February to March 1 the March-based year changes. */
  lemma NextDayMarch(d: Date)
    requires ValidDate(d) && d.month == 2 && d.day == DaysInMonth(d.year, 2)
    ensures DayNumber(NextDay(d)) == DayNumber(d) + 1
  {
    assert NextDay(d) == Date(d.year, 3, 1);
    MonthStarts(11);
    MonthStarts(0);
    DaysToMarchStep(d.year);
  }

  /** At the end of any other month, including December, the March-based year
      stays and the month offset grows by the month's length. */
  lemma NextDayNewMonth(d: Date)
    requires ValidDate(d) && d.month != 2 && d.day == DaysInMonth(d.year, d.month)
    ensures DayNumber(NextDay(d)) == DayNumber(d) + 1
  {
    var n := NextDay(d);
    var mp := if d.month > 2 then d.month - 3 else d.month + 9;
    assert n.month == (if d.month == 12 then 1 else d.month + 1);
    assert (if n.month > 2 then n.month - 3 else n.month + 9) == mp + 1;
    MonthLength(mp);
  }

  /** Each March-based month but February starts where the one before it ends. */
  lemma MonthLength(mp: int)
    requires 0 <= mp < 11
    ensures var month := if mp < 10 then mp + 3 else mp - 9;
            MonthStart(mp + 1) - MonthStart(mp) == DaysInMonth(0, month)
  {
    MonthStarts(mp);
    MonthStarts(mp + 1);
  }

  /** The day numbers of three days of January 2024. */
  lemma January2024()
    ensures DayNumber(Date(2024, 1, 1)) == 19723
    ensures DayNumber(Date(2024, 1, 5)) == 19727
    ensures DayNumber(Date(2024, 1, 10)) == 19732
  {
    assert 2023 / 400 == 5 && 2023 - 5 * 400 == 23;
    assert DaysInEra(23) == 8400;
    assert MonthStart(10) == 306;
  }

  lemma EpochIsDayZero()
    ensures DayNumber(Date(1970, 1, 1)) == 0
  {
    assert 1969 / 400 == 4 && 1969 - 4 * 400 == 369;
    assert DaysInEra(369) == 134774;
    assert MonthStart(10) == 306;
  }
}
