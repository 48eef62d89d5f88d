/**
 UTC dates as the payment core uses them. An instant is a count of milliseconds since 1970-01-01, a day a
 count of days since then, and a month a count of months since January 1970.
 `AddMonths` is `d.setMonth(d.getMonth() + n)` (sections 21.4.1 and 21.4.4 of ECMA-262).
 */
module Calendar {
  type Instant = nat

  const MS_PER_DAY: nat := 86_400_000

  predicate IsLeap(y: int) {
    y % 4 == 0 && (y % 100 != 0 || y % 400 == 0)
  }

  /** Length in days of the month m (0 to 11) of a year. */
  function LengthIn(leap: bool, m: nat): (days: nat)
    ensures 28 <= days <= 31
  {
    if m == 1 then (if leap then 29 else 28)
    else if m == 3 || m == 5 || m == 8 || m == 10 then 30
    else 31
  }

  function MonthLength(month: nat): (days: nat)
    ensures 28 <= days <= 31
  {
    LengthIn(IsLeap(1970 + month / 12), month % 12)
  }

  /** The first day of a month: the lengths of all months before it. */
  function FirstDay(month: nat): nat
  {
    if month == 0 then 0 else FirstDay(month - 1) + MonthLength(month - 1)
  }

  /** Total length of the given number of consecutive months. */
  function SpanOfMonths(month: nat, months: nat): nat
    decreases months
  {
    if months == 0 then 0 else MonthLength(month) + SpanOfMonths(month + 1, months - 1)
  }

  lemma {:induction false} SpanIsDifference(month: nat, months: nat)
    ensures FirstDay(month + months) == FirstDay(month) + SpanOfMonths(month, months)
    ensures 28 * months <= SpanOfMonths(month, months) <= 31 * months
    decreases months
  {
    hide MonthLength, FirstDay;
    if months > 0 {
      SpanIsDifference(month + 1, months - 1);
      assert (month + 1) + (months - 1) == month + months;
      NextFirstDay(month);
    }
  }

  // ------------------------------------------------------------ agreement with ECMA-262

  /** The day on which year y starts, in the closed form of section 21.4.1.3 of ECMA-262. */
  function DayFromYear(y: int): int
  {
    365 * (y - 1970) + (y - 1969) / 4 - (y - 1901) / 100 + (y - 1601) / 400
  }

  lemma FourthYears(y: int)
    ensures (y - 1968) / 4 == (y - 1969) / 4 + if y % 4 == 0 then 1 else 0
  {
  }

  lemma Centuries(y: int)
    ensures (y - 1900) / 100 == (y - 1901) / 100 + if y % 100 == 0 then 1 else 0
  {
  }

  lemma FourthCenturies(y: int)
    ensures (y - 1600) / 400 == (y - 1601) / 400 + if y % 400 == 0 then 1 else 0
  {
  }

  lemma LeapRule(y: int)
    ensures y % 400 == 0 ==> y % 100 == 0
    ensures y % 100 == 0 ==> y % 4 == 0
  {
    FourHundreds(y / 400);
    Hundreds(y / 100);
  }

  lemma FourHundreds(n: int)
    ensures (400 * n) % 100 == 0
  {
    assert 400 * n == 100 * (4 * n);
  }

  lemma Hundreds(n: int)
    ensures (100 * n) % 4 == 0
  {
    assert 100 * n == 4 * (25 * n);
  }

  lemma YearLength(y: int)
    ensures DayFromYear(y + 1) - DayFromYear(y) == if IsLeap(y) then 366 else 365
  {
    FourthYears(y);
    Centuries(y);
    FourthCenturies(y);
    LeapRule(y);
    DayFromNextYear(y);
  }

  lemma DayFromNextYear(y: int)
    ensures DayFromYear(y + 1) == 365 * (y - 1969) + (y - 1968) / 4 - (y - 1900) / 100 + (y - 1600) / 400
  {
    assert (y + 1) - 1969 == y - 1968 && (y + 1) - 1901 == y - 1900 && (y + 1) - 1601 == y - 1600;
  }

  lemma MonthInYear(years: nat, m: nat)
    requires m < 12
    ensures MonthLength(12 * years + m) == LengthIn(IsLeap(1970 + years), m)
  {
    assert (12 * years + m) / 12 == years && (12 * years + m) % 12 == m;
  }

  /** Twelve months from a January make a year. */
  lemma SpanOfYear(years: nat)
    ensures FirstDay(12 * years + 12) == FirstDay(12 * years) + (if IsLeap(1970 + years) then 366 else 365)
  {
    hide MonthLength, IsLeap;
    DaysIntoYear(years, 11);
    SpanIsDifference(12 * years, 11);
    NextFirstDay(12 * years + 11);
    MonthInYear(years, 11);
  }

  /** The standard's table of days before a month (MonthFromTime). */
  function DaysBeforeMonth(leap: bool, m: nat): nat
    requires m < 12
  {
    [0, 31, 59, 90, 120, 151, 181, 212, 243, 273, 304, 334][m] + (if leap && m >= 2 then 1 else 0)
  }

  lemma EpochYear()
    ensures FirstDay(0) == 0 == DayFromYear(1970)
  {
  }

  /** The month-by-month calendar agrees with the standard's closed form for years. */
  lemma {:induction false} FirstDayOfYear(years: nat)
    ensures FirstDay(12 * years) == DayFromYear(1970 + years)
  {
    hide *;
    if years == 0 {
      EpochYear();
    } else {
      FirstDayOfYear(years - 1);
      YearLength(1970 + years - 1);
      SpanOfYear(years - 1);
      assert 12 * (years - 1) + 12 == 12 * years;
    }
  }

  // ------------------------------------------------------------ months of days

  lemma {:induction false} FirstDayGrows(a: nat, b: nat)
    requires a <= b
    ensures FirstDay(a) + 28 * (b - a) <= FirstDay(b)
  {
    SpanIsDifference(a, b - a);
  }

  /** The month a day falls in, searching forward from a month that should not start after it. */
  function MonthFrom(day: nat, month: nat): (m: nat)
    ensures FirstDay(month) <= day ==> FirstDay(m) <= day < FirstDay(m) + MonthLength(m)
    decreases day - FirstDay(month)
  {
    if day < FirstDay(month) + MonthLength(month) then month else
      assert FirstDay(month + 1) == FirstDay(month) + MonthLength(month);
      MonthFrom(day, month + 1)
  }

  function MonthOfDay(day: nat): (m: nat)
    ensures FirstDay(m) <= day < FirstDay(m) + MonthLength(m)
  {
    MonthFrom(day, 0)
  }

  lemma NextFirstDay(month: nat)
    ensures FirstDay(month + 1) == FirstDay(month) + MonthLength(month)
  {
  }

  /** A day lies in exactly one month. */
  lemma MonthOfDayUnique(day: nat, month: nat)
    requires FirstDay(month) <= day < FirstDay(month) + MonthLength(month)
    ensures MonthOfDay(day) == month
  {
    hide *;
    var m := MonthOfDay(day);
    NextFirstDay(m);
    NextFirstDay(month);
    if m < month {
      FirstDayGrows(m + 1, month);
    } else if month < m {
      FirstDayGrows(month + 1, m);
    }
  }

  /** `getDate() - 1`: how many days of its month precede this day. */
  function DateInMonth(day: nat): (d: nat)
    ensures d < MonthLength(MonthOfDay(day))
  {
    day - FirstDay(MonthOfDay(day))
  }

  /** MakeDay with the month moved on and the date kept, so that a date past the month's end spills over. */
  function AddMonthsToDay(day: nat, months: nat): nat
  {
    FirstDay(MonthOfDay(day) + months) + DateInMonth(day)
  }

  function AddMonths(t: Instant, months: nat): Instant
  {
    AddMonthsToDay(t / MS_PER_DAY, months) * MS_PER_DAY + t % MS_PER_DAY
  }

  /** What one, three and twelve consecutive months can come to. */
  lemma SpanBounds(month: nat)
    ensures 28 <= SpanOfMonths(month, 1) <= 31
    ensures 89 <= SpanOfMonths(month, 3) <= 92
    ensures 365 <= SpanOfMonths(month, 12) <= 366
  {
    hide MonthLength, IsLeap;
    SpanIsDifference(month, 1);
    ThreeMonths(month);
    TwelveMonths(month / 12, month % 12);
  }

  lemma TwelveMonths(years: nat, m: nat)
    requires m < 12
    ensures 365 <= SpanOfMonths(12 * years + m, 12) <= 366
  {
    hide MonthLength, IsLeap, SpanOfMonths, FirstDay, DaysBeforeMonth;
    SpanIsDifference(12 * years, m);
    SpanIsDifference(12 * years + 12, m);
    SpanIsDifference(12 * years + m, 12);
    SpanOfYear(years);
    DaysIntoYear(years, m);
    DaysIntoYear(years + 1, m);
    assert 12 * (years + 1) == 12 * years + 12;
    LeapYearsAreApart(1970 + years);
    MonthsBeforeInLeap(m);
  }

  lemma MonthsBeforeInLeap(m: nat)
    requires m < 12
    ensures DaysBeforeMonth(false, m) <= DaysBeforeMonth(true, m) <= DaysBeforeMonth(false, m) + 1
  {
  }

  lemma LeapYearsAreApart(y: int)
    ensures !(IsLeap(y) && IsLeap(y + 1))
  {
  }

  lemma ThreeMonths(month: nat)
    ensures 89 <= SpanOfMonths(month, 3) <= 92
  {
    assert SpanOfMonths(month, 3) == MonthLength(month) + MonthLength(month + 1) + MonthLength(month + 2) by {
      hide MonthLength;
      assert SpanOfMonths(month + 2, 1) == MonthLength(month + 2) + SpanOfMonths(month + 3, 0);
      assert SpanOfMonths(month + 1, 2) == MonthLength(month + 1) + SpanOfMonths(month + 2, 1);
    }
    FebruaryIsRare(month);
  }

  /** Any three consecutive months contain at most one February and at most two short months. */
  lemma FebruaryIsRare(month: nat)
    ensures 89 <= MonthLength(month) + MonthLength(month + 1) + MonthLength(month + 2) <= 92
  {
    hide IsLeap;
    var m := month % 12;
    assert (month + 1) % 12 == (if m == 11 then 0 else m + 1);
    assert (month + 2) % 12 == (if m >= 10 then m - 10 else m + 2);
  }

  /** The days of a year before its month m are those of the standard's table. */
  lemma {:induction false} DaysIntoYear(years: nat, m: nat)
    requires m < 12
    ensures SpanOfMonths(12 * years, m) == DaysBeforeMonth(IsLeap(1970 + years), m)
    decreases m
  {
    hide *;
    if m == 0 {
      NothingBefore(12 * years, IsLeap(1970 + years));
    } else {
      DaysIntoYear(years, m - 1);
      SpanOneMore(12 * years, m - 1);
      MonthInYear(years, m - 1);
      TableStep(IsLeap(1970 + years), m);
    }
  }

  lemma NothingBefore(month: nat, leap: bool)
    ensures SpanOfMonths(month, 0) == 0 == DaysBeforeMonth(leap, 0)
  {
  }

  lemma SpanOneMore(month: nat, months: nat)
    ensures SpanOfMonths(month, months + 1) == SpanOfMonths(month, months) + MonthLength(month + months)
  {
    hide *;
    SpanIsDifference(month, months);
    SpanIsDifference(month, months + 1);
    NextFirstDay(month + months);
  }

  lemma TableStep(leap: bool, m: nat)
    requires 0 < m < 12
    ensures DaysBeforeMonth(leap, m) == DaysBeforeMonth(leap, m - 1) + LengthIn(leap, m - 1)
  {
  }

  /**
   Extending a period adds exactly the lengths of the calendar months it runs through, starting with the
   month of the old end, whatever the overflow of the date.
   */
  lemma AddMonthsIsExact(t: Instant, months: nat)
    ensures AddMonths(t, months) == t + MS_PER_DAY * SpanOfMonths(MonthOfDay(t / MS_PER_DAY), months)
    ensures t + MS_PER_DAY * (28 * months) <= AddMonths(t, months) <= t + MS_PER_DAY * (31 * months)
    ensures months == 1 ==> t + MS_PER_DAY * 28 <= AddMonths(t, months) <= t + MS_PER_DAY * 31
    ensures months == 3 ==> t + MS_PER_DAY * 89 <= AddMonths(t, months) <= t + MS_PER_DAY * 92
    ensures months == 12 ==> t + MS_PER_DAY * 365 <= AddMonths(t, months) <= t + MS_PER_DAY * 366
  {
    hide MonthLength;
    var day := t / MS_PER_DAY;
    var month := MonthOfDay(day);
    SpanIsDifference(month, months);
    SpanBounds(month);
    assert AddMonthsToDay(day, months) == day + SpanOfMonths(month, months);
  }

  /**
   The date survives exactly when the target month is long enough; otherwise the surplus days spill into
   the month after it (31 January plus one month is 2 or 3 March).
   */
  lemma AddMonthsOverflow(day: nat, months: nat)
    ensures var target := MonthOfDay(day) + months;
            var after := AddMonthsToDay(day, months);
            if DateInMonth(day) < MonthLength(target) then
              MonthOfDay(after) == target && DateInMonth(after) == DateInMonth(day)
            else
              MonthOfDay(after) == target + 1 && DateInMonth(after) == DateInMonth(day) - MonthLength(target)
  {
    hide MonthLength;
    var target := MonthOfDay(day) + months;
    var after := AddMonthsToDay(day, months);
    assert FirstDay(target + 1) == FirstDay(target) + MonthLength(target);
    if DateInMonth(day) < MonthLength(target) {
      MonthOfDayUnique(after, target);
    } else {
      MonthOfDayUnique(after, target + 1);
    }
  }
}
