/** Instants and calendar days.

    An instant is a number of milliseconds since 1970-01-01T00:00 (the value of a
    JavaScript `Date`).  The model reads every instant on one clock, so the local
    calendar day and hour that the server derives from an instant are the UTC ones. */
module Clock {

  import opened Common

  const HOUR_MS: int := 3600000
  const DAY_MS: int := 86400000

  /** Calendar day of an instant, counted from 1970-01-01 (day 0); floors for
      instants before the epoch, as the calendar does. */
  function Day(t: int): int
  {
    t / 86400000
  }

  /** The instant 00:00:00.000 of the calendar day of `t` (`setHours(0, 0, 0, 0)`). */
  function Midnight(t: int): (m: int)
    ensures m <= t < m + DAY_MS
    ensures Day(m) == Day(t)
  {
    Day(t) * 86400000
  }

  /** Hour of the day (`getHours()`), 0 to 23. */
  function Hour(t: int): (h: int)
    ensures 0 <= h < 24
    ensures Midnight(t) + h * HOUR_MS <= t < Midnight(t) + (h + 1) * HOUR_MS
  {
    (t % 86400000) / 3600000
  }

  /** Two instants lie on the same calendar day exactly when the second falls
      between the first one's midnight and the last millisecond of that day. */
  lemma SameDay(a: int, b: int)
    ensures Day(a) == Day(b) <==> Midnight(a) <= b <= Midnight(a) + DAY_MS - 1
  {
  }

  /** Moving an instant by whole days moves its calendar day by as many days. */
  lemma ShiftDays(t: int, k: int)
    ensures Day(t + k * DAY_MS) == Day(t) + k
    ensures Hour(t + k * DAY_MS) == Hour(t)
  {
  }

  /** Calendar order of instants: an earlier day holds only earlier instants. */
  lemma DayMonotone(a: int, b: int)
    requires a <= b
    ensures Day(a) <= Day(b)
  {
  }

  datatype Weekday = Sunday | Monday | Tuesday | Wednesday | Thursday | Friday | Saturday

  /** English name of a weekday (`toLocaleDateString('en-US', { weekday: 'long' })`). */
  function WeekdayName(w: Weekday): string
  {
    match w
    case Sunday => "Sunday"
    case Monday => "Monday"
    case Tuesday => "Tuesday"
    case Wednesday => "Wednesday"
    case Thursday => "Thursday"
    case Friday => "Friday"
    case Saturday => "Saturday"
  }

  /** The weekday whose English name is `s`, if any. */
  function ParseWeekday(s: string): (r: Option<Weekday>)
    ensures r.Some? ==> WeekdayName(r.value) == s
    ensures r.None? ==> forall w: Weekday :: WeekdayName(w) != s
  {
    if s == "Sunday" then Some(Sunday)
    else if s == "Monday" then Some(Monday)
    else if s == "Tuesday" then Some(Tuesday)
    else if s == "Wednesday" then Some(Wednesday)
    else if s == "Thursday" then Some(Thursday)
    else if s == "Friday" then Some(Friday)
    else if s == "Saturday" then Some(Saturday)
    else None
  }

  /** Weekday of an instant; day 0 (1970-01-01) was a Thursday. */
  function WeekdayOf(t: int): Weekday
  {
    var n := (Day(t) + 4) % 7;
    if n == 0 then Sunday
    else if n == 1 then Monday
    else if n == 2 then Tuesday
    else if n == 3 then Wednesday
    else if n == 4 then Thursday
    else if n == 5 then Friday
    else Saturday
  }

  /** The weekday after `w`. */
  function NextWeekday(w: Weekday): Weekday
  {
    match w
    case Sunday => Monday
    case Monday => Tuesday
    case Tuesday => Wednesday
    case Wednesday => Thursday
    case Thursday => Friday
    case Friday => Saturday
    case Saturday => Sunday
  }

  /** The epoch fell on a Thursday. */
  lemma WeekdayOfEpoch()
    ensures WeekdayOf(0) == Thursday
    ensures WeekdayOf(-1) == Wednesday
  {
  }

  /** One day later is the next weekday, so the weekdays cycle with period seven
      days. */
  lemma WeekdayAfterOneDay(t: int)
    ensures WeekdayOf(t + DAY_MS) == NextWeekday(WeekdayOf(t))
    ensures WeekdayOf(t + 7 * DAY_MS) == WeekdayOf(t)
  {
    ShiftDays(t, 1);
    ShiftDays(t, 7);
  }

  /** The era (400 Gregorian years, 146097 days, starting on a 1 March) that
      holds the calendar day of `t`. */
  function EraOf(t: int): int
  {
    (Day(t) + 719468) / 146097
  }

  /** Day of the era, 0 on the era's first 1 March. */
  function DayOfEra(t: int): (doe: int)
    ensures 0 <= doe <= 146096
  {
    Day(t) + 719468 - EraOf(t) * 146097
  }

  /** Year of the era, counting years from 1 March, for a day of the era. */
  function YearOfEra(doe: int): int
  {
    (doe - doe / 1460 + doe / 36524 - doe / 146096) / 365
  }

  /** Day of the March-based year, 0 on 1 March. */
  function DayOfYear(doe: int): int
  {
    var yoe := YearOfEra(doe);
    doe - (365 * yoe + yoe / 4 - yoe / 100)
  }

  /** Month counted from March (0 is March, 11 is February) of a day of the
      March-based year. */
  function MonthIndex(doy: int): int
  {
    (5 * doy + 2) / 153
  }

  /** Calendar year and month (1 to 12) for an era, a year of the era and a
      month counted from March: January and February close the March-based year,
      so they belong to the next calendar year. */
  function CivilMonth(era: int, yoe: int, mp: int): (int, int)
  {
    var m := if mp < 10 then mp + 3 else mp - 9;
    (yoe + era * 400 + (if m <= 2 then 1 else 0), m)
  }

  /** Year and month (1 to 12) of the calendar day of an instant, as `$year`
      and `$month` compute them: the proleptic Gregorian calendar, converted
      from a day count by the era/year-of-era method. */
  function YearMonth(t: int): (r: (int, int))
    ensures 1 <= r.1 <= 12
  {
    var doe := DayOfEra(t);
    DayOfYearBounds(doe);
    CivilMonth(EraOf(t), YearOfEra(doe), MonthIndex(DayOfYear(doe)))
  }

  /** Calendar order on (year, month) pairs. */
  predicate MonthNotAfter(p: (int, int), q: (int, int))
  {
    p.0 < q.0 || (p.0 == q.0 && p.1 <= q.1)
  }

  lemma MulLe(d: int, a: int, b: int)
    requires d > 0 && a <= b
    ensures d * a <= d * b
  {
    assert d * b - d * a == d * (b - a);
  }

  /** Euclidean quotient characterised by its bracket. */
  lemma DivIs(x: int, d: int, q: int)
    requires d > 0 && d * q <= x < d * q + d
    ensures x / d == q
  {
    var p := x / d;
    assert x == d * p + x % d && 0 <= x % d < d;
    if p < q {
      MulLe(d, p + 1, q);
      assert false;
    }
    if p > q {
      MulLe(d, q + 1, p);
      assert false;
    }
  }

  /** Every day of an era falls in one of its 400 years, on day 0 to 365 of
      that year: the era is split into centuries of 36524 days, those into
      four-year cycles of 1461 days, and those into years. */
  lemma DayOfYearBounds(doe: int)
    requires 0 <= doe <= 146096
    ensures 0 <= YearOfEra(doe) <= 399
    ensures 0 <= DayOfYear(doe) <= 365
  {
    if doe == 146096 {
      assert YearOfEra(doe) == 399;
    } else {
      var c := doe / 36524;
      var r := doe % 36524;
      var k := r / 1461;
      var s := r % 1461;
      assert doe == 36524 * c + 1461 * k + s;
      assert 0 <= c <= 3 && 0 <= k <= 24 && 0 <= s <= 1460;
      var u := (24 * c + k + s) / 1460;
      assert 0 <= u <= 1;
      DivIs(doe, 1460, 25 * c + k + u);
      assert doe / 146096 == 0;
      var j := (s - u) / 365;
      assert 0 <= j <= 3;
      DivIs(doe - doe / 1460 + doe / 36524 - doe / 146096, 365, 100 * c + 4 * k + j);
      var yoe := 100 * c + 4 * k + j;
      assert YearOfEra(doe) == yoe;
      DivIs(yoe, 4, 25 * c + k);
      DivIs(yoe, 100, c);
      assert DayOfYear(doe) == s - 365 * j;
    }
  }

  lemma YearOfEraMonotone(a: int, b: int)
    requires 0 <= a <= b <= 146096
    ensures YearOfEra(a) <= YearOfEra(b)
  {
  }

  /** The calendar month follows the order of the era, the year of the era and
      the month counted from March. */
  lemma CivilMonthMonotone(era1: int, yoe1: int, mp1: int, era2: int, yoe2: int, mp2: int)
    requires 0 <= yoe1 <= 399 && 0 <= yoe2 <= 399 && 0 <= mp1 <= 11 && 0 <= mp2 <= 11
    requires era1 < era2 || (era1 == era2 && (yoe1 < yoe2 || (yoe1 == yoe2 && mp1 <= mp2)))
    ensures MonthNotAfter(CivilMonth(era1, yoe1, mp1), CivilMonth(era2, yoe2, mp2))
  {
  }

  /** Later instants never fall in an earlier month: the buckets that group by
      `$year` and `$month` follow the order of time. */
  lemma YearMonthMonotone(a: int, b: int)
    requires a <= b
    ensures MonthNotAfter(YearMonth(a), YearMonth(b))
  {
    DayMonotone(a, b);
    var doe1, doe2 := DayOfEra(a), DayOfEra(b);
    DayOfYearBounds(doe1);
    DayOfYearBounds(doe2);
    var yoe1, yoe2 := YearOfEra(doe1), YearOfEra(doe2);
    var doy1, doy2 := DayOfYear(doe1), DayOfYear(doe2);
    if EraOf(a) == EraOf(b) {
      YearOfEraMonotone(doe1, doe2);
    }
    CivilMonthMonotone(EraOf(a), yoe1, MonthIndex(doy1), EraOf(b), yoe2, MonthIndex(doy2));
  }

  /** Calendar checkpoint: 2024-02-29, a leap day. */
  lemma YearMonthOnLeapDay()
    ensures YearMonth(1709164800000) == (2024, 2)
  {
    var t := 1709164800000;
    assert Day(t) == 19782;
    assert EraOf(t) == 5;
    var doe := DayOfEra(t);
    assert doe == 8765;
    assert doe / 1460 == 6 && doe / 36524 == 0 && doe / 146096 == 0;
    assert YearOfEra(doe) == 23;
    assert 23 / 4 == 5 && 23 / 100 == 0;
    assert DayOfYear(doe) == 365;
    assert MonthIndex(365) == 11;
  }
}
