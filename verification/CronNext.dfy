/** What `compute_next_run_at` returns: the least slot after now, where the rule makes that possible. */
module CronNext {
  import opened Wrappers
  import opened Calendar
  import opened CronRule

  predicate Multiple(value: int, interval: nat)
    requires interval > 0
  {
    value % interval == 0
  }

  // ---- Slots

  predicate MinuteSlot(interval: nat, m: int)
    requires interval > 0
  {
    Multiple(m % HOUR, interval)
  }

  predicate HourSlot(interval: nat, minute: nat, m: int)
    requires interval > 0
  {
    m % HOUR == minute && Multiple(m / HOUR % 24, interval)
  }

  // Every `interval` days from today, today included.
  predicate DaySlot(today: int, interval: nat, hour: nat, minute: nat, m: int)
    requires interval > 0
  {
    m / DAY >= today && Multiple(m / DAY - today, interval) && m % DAY == 60 * hour + minute
  }

  // The allowed weekdays of every `interval`-th week; weeks are counted from today.
  predicate WeekSlot(today: int, interval: nat, hour: nat, minute: nat, days: set<nat>, m: int)
    requires interval > 0
  {
    && m / DAY >= today && Multiple((m / DAY - today) / 7, interval)
    && Weekday(m / DAY) in days && m % DAY == 60 * hour + minute
  }

  // The day asked for, or today's day of the month cut to the month, in every `interval`-th month from
  // this one.
  predicate MonthRun(
    now: Local, interval: nat, hour: nat, minute: nat, monthDay: Option<nat>, year: nat, month: nat, m: int)
    requires interval > 0
  {
    && year >= 1 && 1 <= month <= 12
    && 12 * year + month >= 12 * now.year + now.month
    && Multiple(12 * year + month - 12 * now.year - now.month, interval)
    && (match monthDay
        case Some(day) => day <= DaysInMonth(year, month) && m / DAY == Ordinal(year, month, day)
        case None =>
          m / DAY == Ordinal(year, month, if now.day <= DaysInMonth(year, month) then now.day else DaysInMonth(year, month)))
    && m % DAY == 60 * hour + minute
  }

  ghost predicate MonthSlot(now: Local, interval: nat, hour: nat, minute: nat, monthDay: Option<nat>, m: int)
    requires interval > 0
  {
    exists year: nat, month: nat :: MonthRun(now, interval, hour, minute, monthDay, year, month, m)
  }

  // The values of a rule's clauses, with their defaults: interval 1, the hour of now, minute 0.
  function Every(rule: Rule): (n: nat)
    requires rule.interval.Some? ==> rule.interval.value > 0
    ensures n > 0
  {
    if rule.interval.Some? then rule.interval.value else 1
  }

  function AtHour(rule: Rule, now: Local): nat
    requires Within(rule.byHour, 0, 23)
  {
    if rule.byHour.Some? then rule.byHour.value else now.hour
  }

  function AtMinute(rule: Rule): nat
    requires Within(rule.byMinute, 0, 59)
  {
    if rule.byMinute.Some? then rule.byMinute.value else 0
  }

  function OnDay(rule: Rule): Option<nat>
    requires Within(rule.byMonthDay, 1, 31)
  {
    if rule.byMonthDay.Some? then Some(rule.byMonthDay.value) else None
  }

  // A run of a monthly rule in a given month.
  predicate MonthlyRun(rule: Rule, now: Local, year: nat, month: nat, m: int)
    requires Acceptable(rule)
  {
    MonthRun(now, Every(rule), AtHour(rule, now), AtMinute(rule), OnDay(rule), year, month, m)
  }

  /** The slots of a rule. Without BYDAY a weekly rule means the weekday of now; a rule of so many minutes
      has no other clause that matters. */
  ghost predicate Slot(rule: Rule, now: Local, m: int)
    requires Acceptable(rule) && now.Valid()
  {
    var today := Ordinal(now.year, now.month, now.day);
    match rule.frequency
    case Minutely => MinuteSlot(Every(rule), m)
    case Hourly => HourSlot(Every(rule), AtMinute(rule), m)
    case Daily => DaySlot(today, Every(rule), AtHour(rule, now), AtMinute(rule), m)
    case Weekly =>
      WeekSlot(today, Every(rule), AtHour(rule, now), AtMinute(rule),
               if rule.byDay.Some? then (set d <- rule.byDay.value) else {Weekday(today)}, m)
    case Monthly => exists year: nat, month: nat :: MonthlyRun(rule, now, year, month, m)
  }

  // ---- Rounding up within an hour or a day

  /** Counting from 0 in steps of `interval` lands on `period`, or on the last value before it. */
  predicate Divides(interval: nat, period: nat)
    requires interval > 0 && period > 0
  {
    Multiple(period, interval) || Multiple(period - 1, interval)
  }

  lemma NoMultipleBetween(n: int, e: int)
    requires n > 0 && -n < n * e < n
    ensures e == 0
  {}

  lemma ModStep(c: nat, interval: nat, j: nat)
    requires interval > 0 && c % interval + j <= interval
    ensures (c + j) % interval == if c % interval + j < interval then c % interval + j else 0
  {
    var q, r := c / interval, c % interval;
    var d, s := (c + j) / interval, (c + j) % interval;
    assert interval * q + r + j == interval * d + s;
    if r + j < interval {
      assert interval * (q - d) == s - r - j;
      NoMultipleBetween(interval, q - d);
    } else {
      assert interval * (q + 1 - d) == s;
      NoMultipleBetween(interval, q + 1 - d);
    }
  }

  lemma MissingSkipsNone(c: nat, interval: nat, j: nat)
    requires interval > 0 && j < Missing(c, interval)
    ensures !Multiple(c + j, interval)
  {
    ModStep(c, interval, j);
  }

  lemma MissingReaches(c: nat, interval: nat)
    requires interval > 0
    ensures Multiple(c + Missing(c, interval), interval)
  {
    if c % interval != 0 { ModStep(c, interval, Missing(c, interval)); }
  }

  /** Rounding up finds the next multiple within the period, or its end, when the interval divides it. */
  lemma MissingStaysInPeriod(c: nat, interval: nat, period: nat)
    requires interval > 0 && c < period && Divides(interval, period)
    ensures c + Missing(c, interval) <= period
  {
    hide Multiple, Missing;
    var n := Missing(c, interval);
    if period < c + n {
      MissingSkipsNone(c, interval, period - c);
      MissingSkipsNone(c, interval, period - 1 - c);
    }
  }

  /** Otherwise rounding up from the last value of the period overshoots the next period's first value. */
  lemma MissingOvershoots(interval: nat, period: nat)
    requires interval > 0 && period > 0 && !Divides(interval, period)
    ensures Missing(period - 1, interval) > 1
  {
    ModStep(period - 1, interval, 1);
  }

  lemma ZeroIsMultiple(interval: nat)
    requires interval > 0
    ensures Multiple(0, interval)
  {}

  // ---- MINUTELY and HOURLY

  ghost predicate NextMinuteSlot(n: int, interval: nat, m: int)
    requires interval > 0
  {
    MinuteSlot(interval, m) && m > n && forall k | MinuteSlot(interval, k) && k > n :: m <= k
  }

  ghost predicate NextHourSlot(n: int, interval: nat, minute: nat, m: int)
    requires interval > 0
  {
    HourSlot(interval, minute, m) && m > n && forall k | HourSlot(interval, minute, k) && k > n :: m <= k
  }

  // Within the hour that begins at `h`, and at its end.
  lemma MinuteOfHour(h: int, x: nat)
    requires h % HOUR == 0 && x <= HOUR
    ensures (h + x) % HOUR == if x == HOUR then 0 else x
  {}

  // Hour `g` at a minute.
  lemma HourAndMinute(g: int, minute: nat)
    requires minute < HOUR
    ensures (g * HOUR + minute) / HOUR == g && (g * HOUR + minute) % HOUR == minute
  {}

  // Within the day that begins at hour `d`, and at its end.
  lemma HourOfDay(d: int, x: nat)
    requires d % 24 == 0 && x <= 24
    ensures (d + x) % 24 == if x == 24 then 0 else x
  {}

  lemma MinuteSlotSkipped(h: int, c: nat, interval: nat, k: int)
    requires interval > 0 && h % HOUR == 0 && c < HOUR && c + Missing(c, interval) <= HOUR
    requires h + c <= k < h + c + Missing(c, interval)
    ensures !MinuteSlot(interval, k)
  {
    hide Multiple, Missing;
    MinuteOfHour(h, k - h);
    MissingSkipsNone(c, interval, k - h - c);
  }

  lemma MinuteFound(now: Local, interval: nat)
    requires now.Valid() && interval > 0 && Divides(interval, HOUR)
    ensures NextMinuteSlot(now.Minutes(), interval, AlignedMinute(now, interval))
  {
    hide Multiple, Missing, now.Minutes, Divides;
    var n := now.Minutes();
    var c: nat := (n + 1) % HOUR;
    var h := n + 1 - c;
    MissingReaches(c, interval);
    MissingStaysInPeriod(c, interval, HOUR);
    ZeroIsMultiple(interval);
    MinuteOfHour(h, c + Missing(c, interval));
    forall k | MinuteSlot(interval, k) && k > n ensures h + c + Missing(c, interval) <= k {
      if k < h + c + Missing(c, interval) {
        MinuteSlotSkipped(h, c, interval, k);
        assert false;
      }
    }
  }

  /** Minute alignment finds the least slot after every now exactly when the interval divides 60 or 59,
      that is, when it divides 60 or is 59. */
  lemma MinuteAlignmentExactly(interval: nat)
    requires interval > 0
    ensures Divides(interval, HOUR) <==>
            forall now: Local | now.Valid() :: NextMinuteSlot(now.Minutes(), interval, AlignedMinute(now, interval))
  {
    if Divides(interval, HOUR) {
      forall now: Local | now.Valid()
        ensures NextMinuteSlot(now.Minutes(), interval, AlignedMinute(now, interval))
      {
        MinuteFound(now, interval);
      }
    } else {
      hide *;
      var now := FirstDay(0, 58);
      MinuteFails(now, interval);
    }
  }

  lemma MinuteFails(now: Local, interval: nat)
    requires interval > 0 && !Divides(interval, HOUR)
    requires now.Valid() && now.Minutes() == DAY + 58
    ensures !NextMinuteSlot(now.Minutes(), interval, AlignedMinute(now, interval))
  {
    hide now.Minutes, now.Valid, NextMinuteSlot, Missing, Divides;
    MinuteOvershoots(interval);
  }

  // The first day of the calendar, at a given time.
  lemma FirstDay(hour: nat, minute: nat) returns (now: Local)
    requires hour < 24 && minute < 60
    ensures now.Valid() && now.Minutes() == DAY + hour * HOUR + minute
  {
    now := Local(1, 1, 1, hour, minute, 0, 0);
  }

  lemma MinuteOvershoots(interval: nat)
    requires interval > 0 && !Divides(interval, HOUR)
    ensures !NextMinuteSlot(DAY + 58, interval, DAY + 59 + Missing((DAY + 59) % HOUR, interval))
  {
    hide Multiple, Missing, Divides;
    MissingOvershoots(interval, HOUR);
    ZeroIsMultiple(interval);
    assert (DAY + 60) % HOUR == 0 && (DAY + 59) % HOUR == 59;
    assert MinuteSlot(interval, DAY + 60);
  }

  lemma HourBase(now: Local, minute: nat)
    requires now.Valid() && minute < 60
    ensures
      var base := ThisHourOrNext(now, minute);
      base % HOUR == minute && now.Minutes() < base <= now.Minutes() + HOUR
  {
    var same := At(now.Today(), now.hour, minute);
    LaterIsNextMinute(same, now);
    hide Later, now.Today;
    assert same == HOUR * (now.Today() * 24 + now.hour) + minute;
  }

  lemma HourSlotSkipped(g: int, c: nat, interval: nat, minute: nat, k: int)
    requires interval > 0 && minute < HOUR && c < 24 && g % 24 == c && c + Missing(c, interval) <= 24
    requires g * HOUR + minute - HOUR < k < (g + Missing(c, interval)) * HOUR + minute
    ensures !HourSlot(interval, minute, k)
  {
    hide Multiple, Missing;
    if k % HOUR == minute {
      var j := k / HOUR - g;
      assert k == (g + j) * HOUR + minute;
      assert 0 <= j < Missing(c, interval);
      HourOfDay(g - c, c + j);
      MissingSkipsNone(c, interval, j);
    }
  }

  lemma HourFound(n: int, base: int, interval: nat, minute: nat)
    requires interval > 0 && minute < 60 && Divides(interval, 24)
    requires base % HOUR == minute && n < base <= n + HOUR
    ensures NextHourSlot(n, interval, minute, base + Missing(base / HOUR % 24, interval) * HOUR)
  {
    hide Multiple, Missing, Divides;
    var g := base / HOUR;
    var c: nat := g % 24;
    var steps := Missing(c, interval);
    var m := base + steps * HOUR;
    MissingReaches(c, interval);
    MissingStaysInPeriod(c, interval, 24);
    ZeroIsMultiple(interval);
    assert base == g * HOUR + minute && m == (g + steps) * HOUR + minute;
    HourAndMinute(g + steps, minute);
    HourOfDay(g - c, c + steps);
    forall k | HourSlot(interval, minute, k) && k > n ensures m <= k {
      if k < m {
        HourSlotSkipped(g, c, interval, minute, k);
        assert false;
      }
    }
  }

  /** Hour alignment finds the least slot after every now exactly when the interval divides 24 or 23. */
  lemma HourAlignmentExactly(interval: nat, minute: nat)
    requires interval > 0 && minute < 60
    ensures Divides(interval, 24) <==>
            forall now: Local | now.Valid() ::
              NextHourSlot(now.Minutes(), interval, minute, AlignedHour(now, interval, minute))
  {
    if Divides(interval, 24) {
      forall now: Local | now.Valid()
        ensures NextHourSlot(now.Minutes(), interval, minute, AlignedHour(now, interval, minute))
      {
        HourBase(now, minute);
        HourFound(now.Minutes(), ThisHourOrNext(now, minute), interval, minute);
      }
    } else {
      hide *;
      var now := FirstDay(22, minute);
      HourFails(now, interval, minute);
    }
  }

  lemma HourFails(now: Local, interval: nat, minute: nat)
    requires interval > 0 && minute < 60 && !Divides(interval, 24)
    requires now.Valid() && now.Minutes() == DAY + 22 * HOUR + minute
    ensures !NextHourSlot(now.Minutes(), interval, minute, AlignedHour(now, interval, minute))
  {
    hide now.Minutes, now.Valid, NextHourSlot, Missing, Divides, ThisHourOrNext;
    HourBase(now, minute);
    assert ThisHourOrNext(now, minute) == DAY + 23 * HOUR + minute;
    HourSlotMissed(interval, minute);
  }

  lemma HourSlotMissed(interval: nat, minute: nat)
    requires interval > 0 && minute < 60 && !Divides(interval, 24)
    ensures
      var n := DAY + 22 * HOUR + minute;
      !NextHourSlot(n, interval, minute, n + HOUR + Missing((n + HOUR) / HOUR % 24, interval) * HOUR)
  {
    hide Multiple, Missing, Divides;
    var base, midnight := DAY + 23 * HOUR + minute, 2 * DAY + minute;
    MissingOvershoots(interval, 24);
    ZeroIsMultiple(interval);
    assert midnight / HOUR % 24 == 0 && midnight % HOUR == minute && base / HOUR % 24 == 23;
    assert HourSlot(interval, minute, midnight);
  }

  // ---- DAILY

  lemma DayFound(now: Local, interval: nat, hour: nat, minute: nat)
    requires now.Valid() && interval > 0 && hour < 24 && minute < 60
    ensures
      var m := AlignedDay(now, interval, hour, minute);
      && DaySlot(now.Today(), interval, hour, minute, m) && m > now.Minutes()
      && forall k | DaySlot(now.Today(), interval, hour, minute, k) && k > now.Minutes() :: m <= k
  {
    var n, today := now.Minutes(), now.Today();
    AtParts(today, now.hour, now.minute);
    AtParts(today, hour, minute);
    AtParts(today + 1, hour, minute);
    var same := At(today, hour, minute);
    LaterIsNextMinute(same, now);
    hide Later, now.Today, now.Minutes, Multiple, Missing;
    var candidate := TodayOrTomorrow(now, hour, minute);
    var c: nat := candidate / DAY - today;
    var steps := Missing(c, interval);
    var m := AlignedDay(now, interval, hour, minute);
    MissingReaches(c, interval);
    AtParts(today + c + steps, hour, minute);
    assert m == At(today + c + steps, hour, minute);
    forall k | DaySlot(today, interval, hour, minute, k) && k > n ensures m <= k {
      EarlierDaySkipped(today, interval, hour, minute, c, n, k);
    }
  }

  lemma EarlierDaySkipped(today: int, interval: nat, hour: nat, minute: nat, c: nat, n: int, k: int)
    requires interval > 0 && hour < 24 && minute < 60 && DaySlot(today, interval, hour, minute, k) && k > n
    requires n >= today * DAY && (c == 0 || (c == 1 && n >= At(today, hour, minute)))
    ensures At(today + c + Missing(c, interval), hour, minute) <= k
  {
    hide Multiple, Missing;
    var j := k / DAY - today;
    if j < c + Missing(c, interval) {
      assert j >= c;
      MissingSkipsNone(c, interval, j - c);
    }
  }

  // ---- WEEKLY

  predicate WeekHit(now: Local, interval: nat, hour: nat, minute: nat, days: set<nat>, offset: nat)
    requires now.Valid() && interval > 0
  {
    WeekAllows(now, interval, days, offset) && Later(At(now.Today() + offset, hour, minute), now)
  }

  // The search returns the first hit from `from` on, if there is one in its range.
  lemma {:induction false} FirstWeekHit(
    now: Local, interval: nat, hour: nat, minute: nat, days: set<nat>, from: nat, hit: nat)
    requires now.Valid() && interval > 0 && from <= hit < 7 * interval + 7
    requires WeekHit(now, interval, hour, minute, days, hit)
    ensures
      var r := FirstWeek(now, interval, hour, minute, days, from);
      exists o: nat :: from <= o <= hit && r == Some(At(now.Today() + o, hour, minute))
        && WeekHit(now, interval, hour, minute, days, o)
        && forall i | from <= i < o :: !WeekHit(now, interval, hour, minute, days, i)
    decreases hit - from
  {
    hide now.Today, Later, WeekAllows, At;
    if !WeekHit(now, interval, hour, minute, days, from) {
      FirstWeekHit(now, interval, hour, minute, days, from + 1, hit);
    }
  }

  /** The `7 * interval + 7` days searched always contain a hit: the weekday asked for, in the week
      `interval` weeks on. */
  lemma SomeWeekHit(now: Local, interval: nat, hour: nat, minute: nat, days: set<nat>) returns (hit: nat)
    requires now.Valid() && interval > 0 && hour < 24 && minute < 60
    requires days != {} && forall d <- days :: d < 7
    ensures hit < 7 * interval + 7 && WeekHit(now, interval, hour, minute, days, hit)
  {
    hide now.Today, now.Minutes;
    var d :| d in days;
    var start := now.Today() + 7 * interval;
    var step: nat := (d - Weekday(start)) % 7;
    hit := 7 * interval + step;
    assert Weekday(start + step) == d;
    assert hit / 7 == interval && interval % interval == 0;
    LaterIsNextMinute(At(now.Today() + hit, hour, minute), now);
    WeekAhead(now, hit, hour, minute);
  }

  lemma WeekAhead(now: Local, offset: nat, hour: nat, minute: nat)
    requires now.Valid() && offset >= 1
    ensures At(now.Today() + offset, hour, minute) > now.Minutes()
  {
    hide now.Today;
  }

  lemma WeekFound(now: Local, interval: nat, hour: nat, minute: nat, days: set<nat>)
    requires now.Valid() && interval > 0 && hour < 24 && minute < 60
    requires days != {} && forall d <- days :: d < 7
    ensures
      var r := FirstWeek(now, interval, hour, minute, days, 0);
      && r.Some? && WeekSlot(now.Today(), interval, hour, minute, days, r.value) && Later(r.value, now)
      && forall k | WeekSlot(now.Today(), interval, hour, minute, days, k) && Later(k, now) :: r.value <= k
  {
    hide now.Today, Later;
    var hit := SomeWeekHit(now, interval, hour, minute, days);
    FirstWeekHit(now, interval, hour, minute, days, 0, hit);
    var r := FirstWeek(now, interval, hour, minute, days, 0);
    var o: nat :| r == Some(At(now.Today() + o, hour, minute)) && WeekHit(now, interval, hour, minute, days, o)
      && forall i | 0 <= i < o :: !WeekHit(now, interval, hour, minute, days, i);
    hide FirstWeek;
    assert r.value / DAY == now.Today() + o && r.value % DAY == 60 * hour + minute;
    forall k | WeekSlot(now.Today(), interval, hour, minute, days, k) && Later(k, now) ensures r.value <= k {
      var j: nat := k / DAY - now.Today();
      assert k == At(now.Today() + j, hour, minute);
      assert WeekHit(now, interval, hour, minute, days, j);
    }
  }

  // ---- MONTHLY

  lemma {:induction false} FirstMonthHit(
    now: Local, interval: nat, hour: nat, minute: nat, monthDay: Option<nat>, from: nat, hit: nat)
    requires now.Valid() && interval > 0 && from <= hit < MONTHS_SEARCHED
    requires MonthHit(now, interval, hour, minute, monthDay, hit)
    ensures
      exists o: nat :: from <= o <= hit && MonthHit(now, interval, hour, minute, monthDay, o)
        && FirstMonth(now, interval, hour, minute, monthDay, from) == MonthCandidate(now, hour, minute, monthDay, o)
        && forall i | from <= i < o :: !MonthHit(now, interval, hour, minute, monthDay, i)
    decreases hit - from
  {
    hide now.Valid, MonthHit, MonthCandidate;
    if !MonthHit(now, interval, hour, minute, monthDay, from) {
      FirstMonthHit(now, interval, hour, minute, monthDay, from + 1, hit);
    }
  }

  lemma {:induction false} NoMonthHit(
    now: Local, interval: nat, hour: nat, minute: nat, monthDay: Option<nat>, from: nat)
    requires now.Valid() && interval > 0
    requires forall i | from <= i < MONTHS_SEARCHED :: !MonthHit(now, interval, hour, minute, monthDay, i)
    ensures FirstMonth(now, interval, hour, minute, monthDay, from).None?
    decreases MONTHS_SEARCHED - from
  {
    if from < MONTHS_SEARCHED { NoMonthHit(now, interval, hour, minute, monthDay, from + 1); }
    hide MonthHit;
  }

  lemma CandidatesAscend(now: Local, hour: nat, minute: nat, monthDay: Option<nat>, i: nat, j: nat)
    requires now.Valid() && hour < 24 && minute < 60 && i < j
    requires monthDay.Some? ==> monthDay.value > 0
    ensures
      var a, b := MonthCandidate(now, hour, minute, monthDay, i), MonthCandidate(now, hour, minute, monthDay, j);
      a.Some? && b.Some? ==> a.value < b.value
  {
    var k := MonthIndex(now.year, now.month);
    hide Before, Length, now.Valid;
    LaterMonthsFollow(k + i, k + j);
  }

  // The candidate of the month `offset` months on, by year and month.
  lemma RunIsCandidate(now: Local, interval: nat, hour: nat, minute: nat, monthDay: Option<nat>, offset: nat, m: int)
    requires now.Valid() && interval > 0 && hour < 24 && minute < 60 && offset % interval == 0
    requires MonthCandidate(now, hour, minute, monthDay, offset) == Some(m)
    ensures MonthSlot(now, interval, hour, minute, monthDay, m)
  {
    CandidateOf(now, hour, minute, monthDay, offset);
    var year: nat, month: nat := now.year + (now.month + offset - 1) / 12, (now.month + offset - 1) % 12 + 1;
    MonthsApart(now.year, now.month, offset);
    var last := DaysInMonth(year, month);
    var target := if monthDay.Some? then monthDay.value else now.day;
    AtParts(Ordinal(year, month, if target <= last then target else last), hour, minute);
    hide Ordinal, DaysInMonth, MonthCandidate, At, now.Valid;
    assert MonthRun(now, interval, hour, minute, monthDay, year, month, m);
  }

  lemma AtParts(ordinal: int, hour: nat, minute: nat)
    requires hour < 24 && minute < 60
    ensures At(ordinal, hour, minute) / DAY == ordinal && At(ordinal, hour, minute) % DAY == 60 * hour + minute
  {}

  lemma MultipleIs(value: int, interval: nat)
    requires interval > 0
    ensures Multiple(value, interval) <==> value % interval == 0
  {}

  lemma AtOf(m: int, hour: nat, minute: nat)
    requires m % DAY == 60 * hour + minute
    ensures At(m / DAY, hour, minute) == m
  {}

  lemma MonthsApart(year: nat, month: nat, offset: nat)
    requires 1 <= month
    ensures 12 * (year + (month + offset - 1) / 12) + (month + offset - 1) % 12 + 1 - 12 * year - month == offset
  {}

  lemma CandidateIsRun(
    now: Local, interval: nat, hour: nat, minute: nat, monthDay: Option<nat>, year: nat, month: nat, m: int)
    returns (offset: nat)
    requires now.Valid() && interval > 0 && hour < 24 && minute < 60
    ensures offset == 12 * year + month - 12 * now.year - now.month
    requires MonthRun(now, interval, hour, minute, monthDay, year, month, m)
    ensures offset % interval == 0 && MonthCandidate(now, hour, minute, monthDay, offset) == Some(m)
  {
    offset := 12 * year + month - 12 * now.year - now.month;
    CandidateOf(now, hour, minute, monthDay, offset);
    YearAndMonth(now.year, now.month, year, month);
    AtOf(m, hour, minute);
    hide Ordinal, DaysInMonth, MonthCandidate, At, Multiple, now.Valid;
    assert Multiple(offset, interval);
    MultipleIs(offset, interval);
  }

  lemma YearAndMonth(year: nat, month: nat, toYear: nat, toMonth: nat)
    requires 1 <= month <= 12 && 1 <= toMonth <= 12 && 12 * toYear + toMonth >= 12 * year + month
    ensures
      var offset := 12 * toYear + toMonth - 12 * year - month;
      year + (month + offset - 1) / 12 == toYear && (month + offset - 1) % 12 + 1 == toMonth
  {}

  /** Whatever month the search returns is the least slot after now, of all months and not only of the
      24 searched; it fails exactly when none of those 24 has a slot after now. */
  lemma MonthFound(now: Local, interval: nat, hour: nat, minute: nat, monthDay: Option<nat>)
    requires now.Valid() && interval > 0 && hour < 24 && minute < 60
    requires monthDay.Some? ==> monthDay.value > 0
    ensures
      var r := FirstMonth(now, interval, hour, minute, monthDay, 0);
      && (r.Some? <==> exists i: nat :: i < MONTHS_SEARCHED && MonthHit(now, interval, hour, minute, monthDay, i))
      && (r.Some? ==>
            && MonthSlot(now, interval, hour, minute, monthDay, r.value) && Later(r.value, now)
            && forall k | MonthSlot(now, interval, hour, minute, monthDay, k) && Later(k, now) :: r.value <= k)
  {
    hide now.Valid, Later, MonthCandidate, FirstMonth, MonthRun;
    var r := FirstMonth(now, interval, hour, minute, monthDay, 0);
    if hit: nat :| hit < MONTHS_SEARCHED && MonthHit(now, interval, hour, minute, monthDay, hit) {
      FirstMonthHit(now, interval, hour, minute, monthDay, 0, hit);
      var o: nat :| MonthHit(now, interval, hour, minute, monthDay, o)
        && r == MonthCandidate(now, hour, minute, monthDay, o)
        && forall i | 0 <= i < o :: !MonthHit(now, interval, hour, minute, monthDay, i);
      RunIsCandidate(now, interval, hour, minute, monthDay, o, r.value);
      forall k | MonthSlot(now, interval, hour, minute, monthDay, k) && Later(k, now) ensures r.value <= k {
        var year: nat, month: nat :| MonthRun(now, interval, hour, minute, monthDay, year, month, k);
        var j := CandidateIsRun(now, interval, hour, minute, monthDay, year, month, k);
        assert MonthHit(now, interval, hour, minute, monthDay, j);
        if o < j { CandidatesAscend(now, hour, minute, monthDay, o, j); }
      }
    } else {
      NoMonthHit(now, interval, hour, minute, monthDay, 0);
    }
  }

  // Today is a day of this month.
  lemma TodayInMonth(now: Local)
    requires now.Valid()
    ensures
      var k := MonthIndex(now.year, now.month);
      k >= 12 && now.Today() == Before(k) + now.day && 1 <= now.day <= Length(k)
  {
    var k := MonthIndex(now.year, now.month);
    assert YearOf(k) == now.year && MonthOf(k) == now.month;
    hide DaysBeforeYear, DaysBeforeMonth, DaysInMonth;
  }

  // A candidate of a later month is after now.
  lemma MonthAhead(now: Local, hour: nat, minute: nat, monthDay: Option<nat>, offset: nat)
    requires now.Valid() && offset >= 1 && (monthDay.Some? ==> monthDay.value > 0)
    ensures
      var c := MonthCandidate(now, hour, minute, monthDay, offset);
      c.Some? ==> Later(c.value, now)
  {
    hide Before, Length, now.Today, Later, now.Minutes;
    var k := MonthIndex(now.year, now.month);
    var c := MonthCandidate(now, hour, minute, monthDay, offset);
    TodayInMonth(now);
    LaterMonthsFollow(k, k + offset);
    if c.Some? {
      LaterIsNextMinute(c.value, now);
      WithinToday(now);
      assert c.value >= At(Before(k + offset) + 1, hour, minute);
    }
  }

  lemma WithinToday(now: Local)
    requires now.Valid()
    ensures now.Minutes() < At(now.Today() + 1, 0, 0)
  {
    hide now.Today;
  }

  /** The intervals for which every 24 months hold a run: up to 23 for a day every month has, up to 11 for
      the 29th and the 30th, which only a February lacks, and six of them for the 31st. */
  predicate Reaches(interval: nat, monthDay: Option<nat>) {
    if monthDay.None? || monthDay.value <= 28 then interval <= 23
    else if monthDay.value <= 30 then interval <= 11
    else interval <= 4 || interval == 6 || interval == 11
  }

  lemma LengthByMonth(k: nat)
    ensures Length(k) == 31 <==> k % 12 !in {1, 3, 5, 8, 10}
    ensures Length(k) >= 30 <==> k % 12 != 1
  {}

  // Of the months `n`, `2 * n`, .. after month `k`, the first that has 31 days.
  lemma LongMonthAhead(k: nat, n: nat) returns (hit: nat)
    requires 1 <= n && Reaches(n, Some(31))
    ensures 1 <= hit < MONTHS_SEARCHED && hit % n == 0 && Length(k + hit) == 31
  {
    hide Length, Short;
    LengthShort(k + n);
    LengthShort(k + 2 * n);
    LengthShort(k + 3 * n);
    LengthShort(k + 4 * n);
    Multiples(n);
    if !Short((k + n) % 12) { return n; }
    if !Short((k + 2 * n) % 12) { return 2 * n; }
    ShortTwice(k, n);
    hit := if !Short((k + 3 * n) % 12) then 3 * n else 4 * n;
  }

  lemma Multiples(n: nat)
    requires n > 0
    ensures n % n == 0 && (2 * n) % n == 0 && (3 * n) % n == 0 && (4 * n) % n == 0
  {
    ModStep(0, n, n);
    ModStep(n, n, n);
    ModStep(2 * n, n, n);
    ModStep(3 * n, n, n);
    assert 0 % n == 0;
  }

  lemma LengthShort(k: nat)
    ensures Length(k) == 31 <==> !Short(k % 12)
  {
    LengthByMonth(k);
    hide Length;
  }

  predicate Short(m: nat) { m == 1 || m == 3 || m == 5 || m == 8 || m == 10 }

  // The month of the year `n` months after month `m` of a year, both counted from 0.
  function Onward(m: nat, n: nat): nat { if m + n < 12 then m + n else m + n - 12 }

  lemma OnwardIs(k: nat, n: nat)
    requires n < 12
    ensures (k + n) % 12 == Onward(k % 12, n)
  {}

  // Two steps in a row that end in short months are steps of at most 4, and not all four do.
  lemma ShortSteps(m: nat, n: nat)
    requires m < 12 && 1 <= n && Reaches(n, Some(31)) && Short(m) && Short(Onward(m, n))
    ensures n <= 4 && !(Short(Onward(Onward(m, n), n)) && Short(Onward(Onward(Onward(m, n), n), n)))
  {}

  lemma ShortTwice(k: nat, n: nat)
    requires 1 <= n && Reaches(n, Some(31)) && Short((k + n) % 12) && Short((k + 2 * n) % 12)
    ensures n <= 4 && !(Short((k + 3 * n) % 12) && Short((k + 4 * n) % 12))
  {
    OnwardIs(k + n, n);
    OnwardIs(k + 2 * n, n);
    OnwardIs(k + 3 * n, n);
    ShortSteps((k + n) % 12, n);
    hide Short, Onward, Reaches;
    assert k + n + n == k + 2 * n && k + 2 * n + n == k + 3 * n && k + 3 * n + n == k + 4 * n;
  }

  lemma MonthWithDayAhead(k: nat, n: nat, monthDay: Option<nat>) returns (hit: nat)
    requires 1 <= n && Reaches(n, monthDay) && (monthDay.Some? ==> 1 <= monthDay.value <= 31)
    ensures 1 <= hit < MONTHS_SEARCHED && hit % n == 0 && (monthDay.Some? ==> monthDay.value <= Length(k + hit))
  {
    hide Length;
    hit := n;
    if monthDay.Some? && monthDay.value > 30 {
      hit := LongMonthAhead(k, n);
    } else if monthDay.Some? && monthDay.value > 28 {
      LengthByMonth(k + n);
      LengthByMonth(k + 2 * n);
      hit := if Length(k + n) >= 30 then n else 2 * n;
    }
  }

  lemma MonthReached(now: Local, interval: nat, hour: nat, minute: nat, monthDay: Option<nat>)
    requires now.Valid() && hour < 24 && minute < 60
    requires monthDay.Some? ==> 1 <= monthDay.value <= 31
    requires interval > 0 && Reaches(interval, monthDay)
    ensures FirstMonth(now, interval, hour, minute, monthDay, 0).Some?
  {
    var k := MonthIndex(now.year, now.month);
    hide now.Valid, Later, FirstMonth, Length, Before;
    var hit := MonthWithDayAhead(k, interval, monthDay);
    MonthAhead(now, hour, minute, monthDay, hit);
    assert MonthHit(now, interval, hour, minute, monthDay, hit);
    MonthFound(now, interval, hour, minute, monthDay);
  }

  // An instant whose own month holds the slot, at that very minute.
  lemma OnTheSlot(now: Local, monthDay: Option<nat>)
    requires now.Valid() && (monthDay.Some? ==> monthDay.value == now.day)
    ensures MonthCandidate(now, now.hour, now.minute, monthDay, 0) == Some(now.Minutes())
  {
    var k := MonthIndex(now.year, now.month);
    assert YearOf(k) == now.year && MonthOf(k) == now.month;
    assert now.Today() == Before(k) + now.day && now.day <= Length(k);
    hide Before, Length, now.Today;
  }

  // A day of a month, at a given time.
  lemma SomeInstant(k: nat, day: nat, hour: nat, minute: nat) returns (now: Local)
    requires k >= 12 && 1 <= day <= Length(k) && hour < 24 && minute < 60
    ensures now.Valid() && now.day == day && now.hour == hour && now.minute == minute
    ensures MonthIndex(now.year, now.month) == k
  {
    now := Local(YearOf(k), MonthOf(k), day, hour, minute, 0, 0);
  }

  // A month from which every searched month but the first lacks the day.
  function BadStart(interval: nat): nat
    requires 5 <= interval <= 23
  {
    if interval >= 12 then 37 - interval
    else if interval == 5 then 12 else if interval == 7 then 13
    else if interval == 8 then 21 else if interval == 9 then 16 else 17
  }

  lemma BadMonths(interval: nat, day: nat, i: nat)
    requires 5 <= interval <= 23 && 29 <= day <= 31 && !Reaches(interval, Some(day))
    requires 1 <= i < MONTHS_SEARCHED && i % interval == 0
    ensures Length(BadStart(interval) + i) < day
  {
    if interval >= 12 {
      OnlyMultiple(i, interval);
      assert Length(37) == 28;
    } else {
      var q := i / interval;
      assert i == q * interval;
      BadMonthOf31(interval, q);
      hide Length;
    }
  }

  lemma OnlyMultiple(i: nat, n: nat)
    requires 12 <= n && 1 <= i < 24 && i % n == 0
    ensures i == n
  {
    if i < n { SmallMod(i, n); } else { ModStep(n, n, i - n); }
  }

  lemma BadMonthOf31(interval: nat, q: nat)
    requires interval in {5, 7, 8, 9, 10} && 1 <= q && q * interval < MONTHS_SEARCHED
    ensures Length(BadStart(interval) + q * interval) < 31
  {
    LengthByMonth(BadStart(interval) + q * interval);
    hide Length;
  }

  // On that day of that month if it has it, at the very minute of the slot, there is nothing ahead.
  lemma BadStartFails(interval: nat, hour: nat, minute: nat, day: nat)
    requires 5 <= interval <= 23 && 29 <= day <= 31 && !Reaches(interval, Some(day)) && hour < 24 && minute < 60
    ensures exists now: Local :: now.Valid() && FirstMonth(now, interval, hour, minute, Some(day), 0).None?
  {
    var k := BadStart(interval);
    var has := day <= Length(k);
    var now := SomeInstant(k, if has then day else 1, hour, minute);
    hide now.Valid, now.Minutes, Length, Before, BadStart, Reaches, Later;
    forall i | 0 <= i < MONTHS_SEARCHED ensures !MonthHit(now, interval, hour, minute, Some(day), i) {
      if i == 0 {
        if has { NothingThisMonth(now, interval, day); }
      } else if i % interval == 0 {
        BadMonths(interval, day, i);
      }
    }
    NoMonthHit(now, interval, hour, minute, Some(day), 0);
  }

  lemma NothingThisMonth(now: Local, interval: nat, day: nat)
    requires now.Valid() && now.day == day && interval > 0
    ensures !MonthHit(now, interval, now.hour, now.minute, Some(day), 0)
  {
    OnTheSlot(now, Some(day));
    hide now.Valid, now.Minutes, MonthCandidate;
    LaterIsNextMinute(now.Minutes(), now);
  }

  /** The 24 months searched hold a run for every now exactly when the interval is one that reaches. */
  lemma MonthSearchExactly(interval: nat, hour: nat, minute: nat, monthDay: Option<nat>)
    requires interval > 0 && hour < 24 && minute < 60
    requires monthDay.Some? ==> 1 <= monthDay.value <= 31
    ensures Reaches(interval, monthDay) <==>
            forall now: Local | now.Valid() :: FirstMonth(now, interval, hour, minute, monthDay, 0).Some?
  {
    hide FirstMonth, MonthCandidate;
    if Reaches(interval, monthDay) {
      forall now: Local | now.Valid() ensures FirstMonth(now, interval, hour, minute, monthDay, 0).Some? {
        MonthReached(now, interval, hour, minute, monthDay);
      }
    } else if interval >= MONTHS_SEARCHED {
      var now := SomeInstant(12, if monthDay.Some? then monthDay.value else 1, hour, minute);
      OnTheSlot(now, monthDay);
      OutOfReach(now, interval, hour, minute, monthDay);
    } else {
      BadStartFails(interval, hour, minute, monthDay.value);
    }
  }

  lemma OutOfReach(now: Local, interval: nat, hour: nat, minute: nat, monthDay: Option<nat>)
    requires now.Valid() && interval >= MONTHS_SEARCHED
    requires MonthCandidate(now, hour, minute, monthDay, 0) == Some(now.Minutes())
    ensures FirstMonth(now, interval, hour, minute, monthDay, 0).None?
  {
    hide now.Valid, now.Minutes, MonthCandidate;
    forall i | 0 <= i < MONTHS_SEARCHED ensures !MonthHit(now, interval, hour, minute, monthDay, i) {
      if i == 0 { LaterIsNextMinute(now.Minutes(), now); } else { SmallMod(i, interval); }
    }
    NoMonthHit(now, interval, hour, minute, monthDay, 0);
  }

  lemma SmallMod(x: nat, n: nat)
    requires x < n
    ensures x % n == x
  {
    assert 0 % n == 0;
    ModStep(0, n, x);
  }

  /** A day some months lack can be out of reach for longer: the 31st of every twelfth month never
      comes to an April. */
  lemma ThirtyFirstOfApril(now: Local, hour: nat, minute: nat)
    requires now.Valid() && now.month == 4
    ensures FirstMonth(now, 12, hour, minute, Some(31), 0).None?
  {
    var k := MonthIndex(now.year, now.month);
    forall i | 0 <= i < MONTHS_SEARCHED ensures !MonthHit(now, 12, hour, minute, Some(31), i) {
      if i % 12 == 0 {
        assert MonthOf(k + i) == 4;
        assert MonthCandidate(now, hour, minute, Some(31), i).None?;
      }
    }
    NoMonthHit(now, 12, hour, minute, Some(31), 0);
  }

  // ---- The result

  predicate WellAligned(rule: Rule)
    requires Acceptable(rule)
  {
    && (rule.frequency.Minutely? ==> Divides(IntervalOf(rule), HOUR))
    && (rule.frequency.Hourly? ==> Divides(IntervalOf(rule), 24))
  }

  // A whole minute that is after now.
  predicate After(m: int, now: Local)
    requires now.year >= 1 && 1 <= now.month <= 12
  {
    60_000_000 * m >
      60_000_000 * (1440 * Ordinal(now.year, now.month, now.day) + 60 * now.hour + now.minute) + 1_000_000 * now.second + now.micro
  }

  // This month and the 23 after it.
  predicate InReach(now: Local, year: nat, month: nat) { 12 * year + month < 12 * now.year + now.month + 24 }

  ghost predicate NothingInReach(rule: Rule, now: Local)
    requires Acceptable(rule) && now.Valid()
  {
    forall year: nat, month: nat, m | MonthlyRun(rule, now, year, month, m) && InReach(now, year, month) :: !After(m, now)
  }

  ghost predicate NextSlot(rule: Rule, now: Local, m: int)
    requires Acceptable(rule) && now.Valid()
  {
    Slot(rule, now, m) && After(m, now) && forall k | Slot(rule, now, k) && After(k, now) :: m <= k
  }

  /** A rule is refused before anything is computed exactly when one of its clauses is out of its range. */
  lemma RefusedExactly(rule: Rule, now: Local, offset: int)
    requires now.Valid()
    ensures NextRun(rule, now, offset) == Err(InvalidRule) <==>
      || (rule.interval.Some? && rule.interval.value < 1)
      || (rule.byHour.Some? && (rule.byHour.value < 0 || rule.byHour.value > 23))
      || (rule.byMinute.Some? && (rule.byMinute.value < 0 || rule.byMinute.value > 59))
      || (rule.byMonthDay.Some? && (rule.byMonthDay.value < 1 || rule.byMonthDay.value > 31))
      || (rule.byDay.Some? && (rule.byDay.value == [] || exists d <- rule.byDay.value :: d > 6))
  {
    hide Candidate, now.Valid;
  }

  /** `compute_next_run_at` picks the least slot of its frequency after now, refuses it when it lies
      past UNTIL, and otherwise fails only for a monthly rule with no slot in 24 months. */
  lemma NextRunIsLeastSlot(rule: Rule, now: Local, offset: int)
    requires now.Valid() && Acceptable(rule) && WellAligned(rule)
    ensures
      match Candidate(rule, now)
      case Some(m) =>
        && NextSlot(rule, now, m)
        && NextRun(rule, now, offset) ==
           if rule.until.Some? && 60_000_000 * m - offset > rule.until.value then Err(NoFutureOccurrences)
           else Ok(60_000_000 * m - offset)
      case None =>
        && NextRun(rule, now, offset) == Err(NoRunInReach)
        && rule.frequency.Monthly?
        && NothingInReach(rule, now)
  {
    hide Candidate, NextSlot, NothingInReach, now.Valid, WellAligned;
    NextIsSlot(rule, now);
  }

  lemma NextIsSlot(rule: Rule, now: Local)
    requires now.Valid() && Acceptable(rule) && WellAligned(rule)
    ensures
      match Candidate(rule, now)
      case Some(m) => NextSlot(rule, now, m)
      case None => rule.frequency.Monthly? && NothingInReach(rule, now)
  {
    hide now.Valid, now.Minutes, now.Today, Later, Candidate, NextSlot, MonthHit, Acceptable, Divides;
    match rule.frequency
    case Minutely => NextIsMinute(rule, now);
    case Hourly => NextIsHour(rule, now);
    case Daily => NextIsDay(rule, now);
    case Weekly => NextIsWeek(rule, now);
    case Monthly => NextIsMonth(rule, now);
  }

  lemma AfterIsLater(m: int, now: Local)
    requires now.Valid()
    ensures After(m, now) <==> m > now.Minutes()
    ensures After(m, now) <==> Later(m, now)
  {}

  lemma AllAfter(now: Local)
    requires now.Valid()
    ensures forall m :: After(m, now) <==> m > now.Minutes()
    ensures forall m :: After(m, now) <==> Later(m, now)
  {
    forall m ensures (After(m, now) <==> m > now.Minutes()) && (After(m, now) <==> Later(m, now)) { AfterIsLater(m, now); }
  }

  lemma NextIsMinute(rule: Rule, now: Local)
    requires now.Valid() && Acceptable(rule) && WellAligned(rule) && rule.frequency.Minutely?
    ensures Candidate(rule, now).Some? && NextSlot(rule, now, Candidate(rule, now).value)
  {
    AllAfter(now);
    hide now.Minutes, Later, After, AlignedMinute, MinuteSlot, Divides;
    MinuteFound(now, IntervalOf(rule));
  }

  lemma NextIsHour(rule: Rule, now: Local)
    requires now.Valid() && Acceptable(rule) && WellAligned(rule) && rule.frequency.Hourly?
    ensures Candidate(rule, now).Some? && NextSlot(rule, now, Candidate(rule, now).value)
  {
    AllAfter(now);
    hide now.Minutes, Later, After, ThisHourOrNext, HourSlot, Divides;
    var interval, minute := IntervalOf(rule), MinuteOf(rule, now);
    HourBase(now, minute);
    HourFound(now.Minutes(), ThisHourOrNext(now, minute), interval, minute);
  }

  lemma NextIsDay(rule: Rule, now: Local)
    requires now.Valid() && Acceptable(rule) && rule.frequency.Daily?
    ensures Candidate(rule, now).Some? && NextSlot(rule, now, Candidate(rule, now).value)
  {
    AllAfter(now);
    hide now.Minutes, Later, After, AlignedDay, DaySlot, Ordinal;
    DayFound(now, IntervalOf(rule), HourOf(rule, now), MinuteOf(rule, now));
  }

  lemma NextIsWeek(rule: Rule, now: Local)
    requires now.Valid() && Acceptable(rule) && rule.frequency.Weekly?
    ensures Candidate(rule, now).Some? && NextSlot(rule, now, Candidate(rule, now).value)
  {
    AllAfter(now);
    hide now.Minutes, Later, After, FirstWeek, WeekSlot, Ordinal;
    WeekFound(now, IntervalOf(rule), HourOf(rule, now), MinuteOf(rule, now), DaysOf(rule, now));
  }

  lemma NextIsMonth(rule: Rule, now: Local)
    requires now.Valid() && Acceptable(rule) && rule.frequency.Monthly?
    ensures
      match Candidate(rule, now)
      case Some(m) => NextSlot(rule, now, m)
      case None => NothingInReach(rule, now)
  {
    var interval, hour, minute, monthDay := IntervalOf(rule), HourOf(rule, now), MinuteOf(rule, now), MonthDayOf(rule);
    AllAfter(now);
    MonthFound(now, interval, hour, minute, monthDay);
    forall m ensures Slot(rule, now, m) <==> MonthSlot(now, interval, hour, minute, monthDay, m) {
      MonthSlotIs(rule, now, m);
    }
    if Candidate(rule, now).None? { NoMonthInReach(rule, now); }
    hide now.Valid, now.Minutes, Later, After, FirstMonth, MonthSlot, MonthHit, Slot, NothingInReach, IntervalOf, HourOf, MinuteOf,
      MonthDayOf;
  }

  lemma MonthSlotIs(rule: Rule, now: Local, m: int)
    requires now.Valid() && Acceptable(rule) && rule.frequency.Monthly?
    ensures Slot(rule, now, m) <==>
            MonthSlot(now, IntervalOf(rule), HourOf(rule, now), MinuteOf(rule, now), MonthDayOf(rule), m)
  {
    var interval, hour, minute, monthDay := IntervalOf(rule), HourOf(rule, now), MinuteOf(rule, now), MonthDayOf(rule);
    hide MonthRun, Ordinal;
    assert forall year: nat, month: nat ::
      MonthlyRun(rule, now, year, month, m) <==> MonthRun(now, interval, hour, minute, monthDay, year, month, m);
  }

  lemma NoMonthInReach(rule: Rule, now: Local)
    requires now.Valid() && Acceptable(rule) && rule.frequency.Monthly?
    requires forall i: nat | i < MONTHS_SEARCHED ::
      !MonthHit(now, IntervalOf(rule), HourOf(rule, now), MinuteOf(rule, now), MonthDayOf(rule), i)
    ensures NothingInReach(rule, now)
  {
    var interval, hour, minute, monthDay := IntervalOf(rule), HourOf(rule, now), MinuteOf(rule, now), MonthDayOf(rule);
    forall year: nat, month: nat, m | MonthlyRun(rule, now, year, month, m) && InReach(now, year, month) ensures !After(m, now) {
      assert MonthRun(now, interval, hour, minute, monthDay, year, month, m);
      var j := CandidateIsRun(now, interval, hour, minute, monthDay, year, month, m);
      AfterIsLater(m, now);
      hide Later, After, MonthCandidate, MonthRun;
      assert !MonthHit(now, interval, hour, minute, monthDay, j);
    }
  }

  /** The next run is after now under every acceptable rule, aligned or not. */
  lemma NextRunIsAfterNow(rule: Rule, now: Local, offset: int)
    requires now.Valid() && NextRun(rule, now, offset).Ok?
    ensures NextRun(rule, now, offset).value > now.Instant() - offset
    ensures rule.until.Some? ==> NextRun(rule, now, offset).value <= rule.until.value
  {
    var m := Candidate(rule, now).value;
    assert Later(m, now) by {
      var interval, minute := IntervalOf(rule), MinuteOf(rule, now);
      match rule.frequency {
        case Minutely =>
          hide now.Minutes;
          LaterIsNextMinute(m, now);
        case Hourly =>
          HourBase(now, minute);
          hide ThisHourOrNext, now.Minutes;
          LaterIsNextMinute(m, now);
        case _ =>
          NextIsSlot(rule, now);
          hide Candidate;
      }
    }
    hide Candidate;
  }
}
