/** The proleptic Gregorian calendar as Python counts it: day ordinals with day 1 = 1 January of year 1. */
module Calendar {
  predicate Leap(year: nat) { year % 4 == 0 && (year % 100 != 0 || year % 400 == 0) }

  function DaysInMonth(year: nat, month: nat): (n: nat)
    requires 1 <= month <= 12
    ensures 28 <= n <= 31
    ensures month != 2 ==> 30 <= n
  {
    if month == 2 then (if Leap(year) then 29 else 28)
    else if month == 4 || month == 6 || month == 9 || month == 11 then 30
    else 31
  }

  function DaysBeforeYear(year: nat): int
    requires year >= 1
  {
    var y := year - 1;
    365 * y + y / 4 - y / 100 + y / 400
  }

  function DaysBeforeMonth(year: nat, month: nat): nat
    requires 1 <= month <= 12
  {
    if month == 1 then 0 else DaysBeforeMonth(year, month - 1) + DaysInMonth(year, month - 1)
  }

  function Ordinal(year: nat, month: nat, day: nat): int
    requires year >= 1 && 1 <= month <= 12
  {
    DaysBeforeYear(year) + DaysBeforeMonth(year, month) + day
  }

  // Monday is 0.
  function Weekday(ordinal: int): (w: nat)
    ensures w < 7
  {
    (ordinal + 6) % 7
  }

  // Months numbered through the years.
  function MonthIndex(year: nat, month: nat): nat
    requires 1 <= month <= 12
  {
    12 * year + month - 1
  }

  function YearOf(k: nat): nat { k / 12 }

  function MonthOf(k: nat): (m: nat)
    ensures 1 <= m <= 12
  {
    k % 12 + 1
  }

  function Length(k: nat): (n: nat)
    ensures 28 <= n <= 31
  {
    DaysInMonth(YearOf(k), MonthOf(k))
  }

  // The ordinal of the day before the month begins.
  function Before(k: nat): int
    requires k >= 12
  {
    Ordinal(YearOf(k), MonthOf(k), 0)
  }

  lemma YearLength(year: nat)
    requires year >= 1
    ensures DaysBeforeYear(year + 1) == DaysBeforeYear(year) + if Leap(year) then 366 else 365
  {
    Quotients(year - 1);
    Centuries(year);
  }

  lemma Centuries(year: nat)
    ensures year % 400 == 0 ==> year % 100 == 0
    ensures year % 100 == 0 ==> year % 4 == 0
  {
    if year % 400 == 0 { assert year == 100 * (4 * (year / 400)); }
    if year % 100 == 0 { assert year == 4 * (25 * (year / 100)); }
  }

  lemma Quotients(y: nat)
    ensures (y + 1) / 4 == y / 4 + if (y + 1) % 4 == 0 then 1 else 0
    ensures (y + 1) / 100 == y / 100 + if (y + 1) % 100 == 0 then 1 else 0
    ensures (y + 1) / 400 == y / 400 + if (y + 1) % 400 == 0 then 1 else 0
  {
    assert (y + 1) / 4 == y / 4 + if (y + 1) % 4 == 0 then 1 else 0;
    assert (y + 1) / 100 == y / 100 + if (y + 1) % 100 == 0 then 1 else 0;
  }

  lemma MonthsFillYear(year: nat)
    ensures DaysBeforeMonth(year, 12) + 31 == if Leap(year) then 366 else 365
  {
    assert DaysBeforeMonth(year, 2) == 31;
    assert DaysBeforeMonth(year, 3) == 31 + DaysInMonth(year, 2);
    assert DaysBeforeMonth(year, 5) == DaysBeforeMonth(year, 3) + 61;
    assert DaysBeforeMonth(year, 7) == DaysBeforeMonth(year, 5) + 61;
    assert DaysBeforeMonth(year, 9) == DaysBeforeMonth(year, 7) + 62;
    assert DaysBeforeMonth(year, 11) == DaysBeforeMonth(year, 9) + 61;
    assert DaysBeforeMonth(year, 12) == DaysBeforeMonth(year, 11) + 30;
  }

  /** Each month begins the day after the one before it ends. */
  lemma MonthsAdjoin(k: nat)
    requires k >= 12
    ensures Before(k + 1) == Before(k) + Length(k)
  {
    if k % 12 == 11 {
      YearLength(k / 12);
      MonthsFillYear(k / 12);
      assert (k + 1) / 12 == k / 12 + 1 && (k + 1) % 12 == 0;
    } else {
      assert (k + 1) / 12 == k / 12 && (k + 1) % 12 == k % 12 + 1;
    }
  }

  /** A day of an earlier month comes before every day of a later one. */
  lemma {:induction false} LaterMonthsFollow(j: nat, k: nat)
    requires 12 <= j < k
    ensures Before(j) + Length(j) <= Before(k)
  {
    hide Before, DaysInMonth;
    MonthsAdjoin(k - 1);
    if j < k - 1 { LaterMonthsFollow(j, k - 1); }
  }

  /** The calendar names each day once: the ordinal determines year, month and day. */
  lemma OrdinalIsInjective(j: nat, d: nat, k: nat, e: nat)
    requires 12 <= j && 12 <= k && 1 <= d <= Length(j) && 1 <= e <= Length(k)
    requires Before(j) + d == Before(k) + e
    ensures j == k && d == e
  {
    if j < k { LaterMonthsFollow(j, k); }
    if k < j { LaterMonthsFollow(k, j); }
  }

  // ---- The calendar fixed by what is known of it

  /** The months of a year. */
  lemma MonthLengths(year: nat, month: nat)
    requires 1 <= month <= 12
    ensures
      var twentyNine := year % 400 == 0 || (year % 4 == 0 && year % 100 != 0);
      DaysInMonth(year, month) ==
      [31, if twentyNine then 29 else 28, 31, 30, 31, 30, 31, 31, 30, 31, 30, 31][month - 1]
  {
    Centuries(year);
  }

  /** Ordinal 1 is the first day of year 1; 1 January 1970 is day 719163, a Thursday. */
  lemma Epochs(year: nat, month: nat)
    requires month == 1
    ensures year == 1 ==> Ordinal(year, month, 1) == 1
    ensures year == 1970 ==> Ordinal(year, month, 1) == 719163 && Weekday(Ordinal(year, month, 1)) == 3
  {}

  lemma WeekdaysFollow(ordinal: int)
    ensures Weekday(ordinal + 1) == (Weekday(ordinal) + 1) % 7
  {}

  /** The calendar repeats every 400 years, which is 146097 days and a whole number of weeks. */
  lemma Repeats(year: nat, month: nat, day: nat)
    requires year >= 1 && 1 <= month <= 12
    ensures Ordinal(year + 400, month, day) == Ordinal(year, month, day) + 146097
    ensures Weekday(Ordinal(year + 400, month, day)) == Weekday(Ordinal(year, month, day))
  {
    hide DaysBeforeYear, DaysBeforeMonth, Weekday;
    SameMonths(year, month);
    YearsRepeat(year);
    WeeksRepeat(Ordinal(year, month, day));
  }

  lemma WeeksRepeat(ordinal: int)
    ensures Weekday(ordinal + 146097) == Weekday(ordinal)
  {
    assert ordinal + 6 + 146097 == ordinal + 6 + 7 * 20871;
  }

  lemma YearsRepeat(year: nat)
    requires year >= 1
    ensures DaysBeforeYear(year + 400) == DaysBeforeYear(year) + 146097
  {
    var y := year - 1;
    assert (y + 400) / 4 == y / 4 + 100;
    assert (y + 400) / 100 == y / 100 + 4;
    assert (y + 400) / 400 == y / 400 + 1;
  }

  lemma {:induction false} SameMonths(year: nat, month: nat)
    requires 1 <= month <= 12
    ensures DaysBeforeMonth(year + 400, month) == DaysBeforeMonth(year, month)
    decreases month
  {
    if month > 1 {
      SameMonths(year, month - 1);
      SameLength(year, month - 1);
    }
  }

  lemma SameLength(year: nat, month: nat)
    requires 1 <= month <= 12
    ensures DaysInMonth(year + 400, month) == DaysInMonth(year, month)
  {}
}
