/**
  Cron recurrence in a fixed-offset zone. A candidate always falls on a whole minute, so candidates are
  counted in minutes since ordinal day 0, local time; `now` keeps its seconds and microseconds.
*/
module CronRule {
  import opened Wrappers
  import opened Calendar

  const MINUTE := 60_000_000   // microseconds
  const HOUR := 60             // minutes
  const DAY := 1440            // minutes
  const MONTHS_SEARCHED := 24

  datatype Local = Local(year: nat, month: nat, day: nat, hour: nat, minute: nat, second: nat, micro: nat)
  {
    predicate Valid() {
      && year >= 1 && 1 <= month <= 12 && 1 <= day <= DaysInMonth(year, month)
      && hour < 24 && minute < 60 && second < 60 && micro < 1_000_000
    }

    function Today(): int
      requires Valid()
    {
      Ordinal(year, month, day)
    }

    function Minutes(): int
      requires Valid()
    {
      At(Today(), hour, minute)
    }

    function Instant(): int
      requires Valid()
    {
      Minutes() * MINUTE + second * 1_000_000 + micro
    }
  }

  function At(ordinal: int, hour: nat, minute: nat): int { ordinal * DAY + hour * HOUR + minute }

  // candidate > now
  predicate Later(candidate: int, now: Local)
    requires now.Valid()
  {
    candidate * MINUTE > now.Instant()
  }

  /** A whole minute is after now exactly when it is a later minute. */
  lemma LaterIsNextMinute(candidate: int, now: Local)
    requires now.Valid()
    ensures Later(candidate, now) <==> candidate > now.Minutes()
  {}

  // ---- The five alignments

  // What is added to reach the next multiple of `interval`, counting from `value`.
  function Missing(value: int, interval: nat): (n: nat)
    requires interval > 0
    ensures n < interval
  {
    var offset := value % interval;
    if offset != 0 then interval - offset else 0
  }

  function AlignedMinute(now: Local, interval: nat): int
    requires now.Valid() && interval > 0
  {
    var candidate := now.Minutes() + 1;
    candidate + Missing(candidate % HOUR, interval)
  }

  function ThisHourOrNext(now: Local, minute: nat): int
    requires now.Valid()
  {
    var same := At(now.Today(), now.hour, minute);
    if Later(same, now) then same else same + HOUR
  }

  function TodayOrTomorrow(now: Local, hour: nat, minute: nat): int
    requires now.Valid()
  {
    var same := At(now.Today(), hour, minute);
    if Later(same, now) then same else same + DAY
  }

  function AlignedHour(now: Local, interval: nat, minute: nat): int
    requires now.Valid() && interval > 0 && minute < 60
  {
    var candidate := ThisHourOrNext(now, minute);
    candidate + Missing(candidate / HOUR % 24, interval) * HOUR
  }

  function AlignedDay(now: Local, interval: nat, hour: nat, minute: nat): int
    requires now.Valid() && interval > 0 && hour < 24 && minute < 60
  {
    var candidate := TodayOrTomorrow(now, hour, minute);
    candidate + Missing(candidate / DAY - now.Today(), interval) * DAY
  }

  // The day `offset` days from today is one the weekly rule may pick.
  predicate WeekAllows(now: Local, interval: nat, days: set<nat>, offset: nat)
    requires now.Valid() && interval > 0
  {
    Weekday(now.Today() + offset) in days && offset / 7 % interval == 0
  }

  function FirstWeek(now: Local, interval: nat, hour: nat, minute: nat, days: set<nat>, offset: nat): Option<int>
    requires now.Valid() && interval > 0
    decreases 7 * interval + 7 - offset
  {
    if offset >= 7 * interval + 7 then None
    else
      var candidate := At(now.Today() + offset, hour, minute);
      if WeekAllows(now, interval, days, offset) && Later(candidate, now) then Some(candidate)
      else FirstWeek(now, interval, hour, minute, days, offset + 1)
  }

  // The candidate of the month `offset` months on; none if the month lacks the day asked for.
  function MonthCandidate(now: Local, hour: nat, minute: nat, monthDay: Option<nat>, offset: nat): Option<int>
    requires now.Valid()
  {
    var k := MonthIndex(now.year, now.month) + offset;
    var target := if monthDay.Some? then monthDay.value else now.day;
    if monthDay.Some? && target > Length(k) then None
    else Some(At(Before(k) + (if target <= Length(k) then target else Length(k)), hour, minute))
  }

  predicate MonthHit(now: Local, interval: nat, hour: nat, minute: nat, monthDay: Option<nat>, offset: nat)
    requires now.Valid() && interval > 0
  {
    && offset % interval == 0
    && var c := MonthCandidate(now, hour, minute, monthDay, offset);
       c.Some? && Later(c.value, now)
  }

  function FirstMonth(now: Local, interval: nat, hour: nat, minute: nat, monthDay: Option<nat>, offset: nat)
    : Option<int>
    requires now.Valid() && interval > 0
    decreases MONTHS_SEARCHED - offset
  {
    if offset >= MONTHS_SEARCHED then None
    else if MonthHit(now, interval, hour, minute, monthDay, offset)
    then MonthCandidate(now, hour, minute, monthDay, offset)
    else FirstMonth(now, interval, hour, minute, monthDay, offset + 1)
  }

  // ---- The rule

  datatype Frequency = Minutely | Hourly | Daily | Weekly | Monthly

  // The clauses as parsed; `until` is in UTC microseconds, weekdays count from Monday.
  datatype Rule = Rule(
    frequency: Frequency, interval: Option<int>, until: Option<int>, byDay: Option<seq<nat>>,
    byHour: Option<int>, byMinute: Option<int>, byMonthDay: Option<int>)

  datatype CronError = InvalidRule | NoRunInReach | NoFutureOccurrences

  predicate Within(value: Option<int>, lower: int, upper: int) {
    value.Some? ==> lower <= value.value <= upper
  }

  // `validate_schedule`.
  predicate Acceptable(rule: Rule) {
    && (rule.interval.Some? ==> rule.interval.value > 0)
    && Within(rule.byHour, 0, 23) && Within(rule.byMinute, 0, 59) && Within(rule.byMonthDay, 1, 31)
    && (rule.byDay.Some? ==> rule.byDay.value != [] && forall d <- rule.byDay.value :: d < 7)
  }

  function IntervalOf(rule: Rule): (n: nat)
    requires Acceptable(rule)
    ensures n > 0
  {
    if rule.interval.Some? then rule.interval.value else 1
  }

  function HourOf(rule: Rule, now: Local): (h: nat)
    requires Acceptable(rule) && now.Valid()
    ensures h < 24
  {
    if rule.byHour.Some? then rule.byHour.value else now.hour
  }

  function MinuteOf(rule: Rule, now: Local): (m: nat)
    requires Acceptable(rule) && now.Valid()
    ensures m < 60
  {
    if rule.byMinute.Some? then rule.byMinute.value else if rule.frequency.Minutely? then now.minute else 0
  }

  function MonthDayOf(rule: Rule): (d: Option<nat>)
    requires Acceptable(rule)
    ensures d.Some? ==> 1 <= d.value <= 31
  {
    match rule.byMonthDay case None => None case Some(d) => Some(d)
  }

  function DaysOf(rule: Rule, now: Local): (days: set<nat>)
    requires Acceptable(rule) && now.Valid()
    ensures days != {} && forall d <- days :: d < 7
  {
    if rule.byDay.Some? then
      assert rule.byDay.value[0] in rule.byDay.value;
      var days := set d <- rule.byDay.value;
      assert rule.byDay.value[0] in days;
      days
    else {Weekday(now.Today())}
  }

  // The candidate, in local minutes, before UNTIL is looked at.
  function Candidate(rule: Rule, now: Local): Option<int>
    requires Acceptable(rule) && now.Valid()
  {
    var interval, hour, minute := IntervalOf(rule), HourOf(rule, now), MinuteOf(rule, now);
    match rule.frequency
    case Minutely => Some(AlignedMinute(now, interval))
    case Hourly => Some(AlignedHour(now, interval, minute))
    case Daily => Some(AlignedDay(now, interval, hour, minute))
    case Weekly => FirstWeek(now, interval, hour, minute, DaysOf(rule, now), 0)
    case Monthly => FirstMonth(now, interval, hour, minute, MonthDayOf(rule), 0)
  }

  /** `compute_next_run_at`: UTC microseconds, for a local `now` at `offset` microseconds from UTC. */
  function NextRun(rule: Rule, now: Local, offset: int): Result<int, CronError>
    requires now.Valid()
  {
    if !Acceptable(rule) then Err(InvalidRule)
    else
      match Candidate(rule, now)
      case None => Err(NoRunInReach)
      case Some(candidate) =>
        var next := candidate * MINUTE - offset;
        if rule.until.Some? && next > rule.until.value then Err(NoFutureOccurrences) else Ok(next)
  }

  /** `_aligned_week`. */
  method AlignedWeek(now: Local, interval: nat, hour: nat, minute: nat, days: set<nat>) returns (r: Option<int>)
    requires now.Valid() && interval > 0
    ensures r == FirstWeek(now, interval, hour, minute, days, 0)
  {
    var base := At(now.Today(), hour, minute);
    for offset := 0 to 7 * interval + 7
      invariant FirstWeek(now, interval, hour, minute, days, 0) ==
                FirstWeek(now, interval, hour, minute, days, offset)
    {
      var candidate := base + offset * DAY;
      if Weekday(now.Today() + offset) !in days { continue; }
      if !Later(candidate, now) { continue; }
      var weeksSinceNow := offset / 7;
      if weeksSinceNow % interval == 0 { return Some(candidate); }
    }
    return None;
  }

  /** `_aligned_month`. */
  method AlignedMonth(now: Local, interval: nat, hour: nat, minute: nat, monthDay: Option<nat>)
    returns (r: Option<int>)
    requires now.Valid() && interval > 0
    ensures r == FirstMonth(now, interval, hour, minute, monthDay, 0)
  {
    hide Ordinal, DaysInMonth, Later, At, MonthCandidate;
    var year, month := now.year, now.month;
    var targetDay := if monthDay.Some? then monthDay.value else now.day;
    for offset := 0 to MONTHS_SEARCHED
      invariant FirstMonth(now, interval, hour, minute, monthDay, 0) ==
                FirstMonth(now, interval, hour, minute, monthDay, offset)
    {
      var candidateMonth := month + offset;
      var candidateYear := year + (candidateMonth - 1) / 12;
      var normalizedMonth := (candidateMonth - 1) % 12 + 1;
      CandidateOf(now, hour, minute, monthDay, offset);
      if offset % interval != 0 { continue; }
      var lastDay := DaysInMonth(candidateYear, normalizedMonth);
      if monthDay.Some? && targetDay > lastDay { continue; }
      var day := if targetDay <= lastDay then targetDay else lastDay;
      var candidate := At(Ordinal(candidateYear, normalizedMonth, day), hour, minute);
      if Later(candidate, now) { return Some(candidate); }
    }
    return None;
  }

  // The candidate of a month by year and month, as the loop counts them.
  lemma CandidateOf(now: Local, hour: nat, minute: nat, monthDay: Option<nat>, offset: nat)
    requires now.Valid()
    ensures
      var year, month := now.year + (now.month + offset - 1) / 12, (now.month + offset - 1) % 12 + 1;
      var target := if monthDay.Some? then monthDay.value else now.day;
      var last := DaysInMonth(year, month);
      MonthCandidate(now, hour, minute, monthDay, offset) ==
      if monthDay.Some? && target > last then None
      else Some(At(Ordinal(year, month, if target <= last then target else last), hour, minute))
  {
    hide DaysInMonth, DaysBeforeYear, DaysBeforeMonth, At;
    SameMonth(now.year, now.month, offset);
  }

  lemma SameMonth(year: nat, month: nat, offset: nat)
    requires 1 <= month <= 12
    ensures year + (month + offset - 1) / 12 == YearOf(MonthIndex(year, month) + offset)
    ensures (month + offset - 1) % 12 + 1 == MonthOf(MonthIndex(year, month) + offset)
  {
    assert (12 * year + (month + offset - 1)) / 12 == year + (month + offset - 1) / 12;
  }
}
