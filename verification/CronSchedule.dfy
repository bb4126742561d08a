/** The next firing of a five-field cron expression: the scan minute by minute, its minimality in any
    time zone, and when a fixed UTC offset guarantees that the bounded scan finds a minute. */
module CronSchedule {
  import opened Options
  import opened Calendar

  /** 366 days, twice. */
  const SCAN_MINUTES: nat := 366 * 24 * 60 * 2

  /** The value sets of the five fields; Sunday is 0. `domFree` and `dowFree` tell whether the day
      fields were written as a single star. */
  datatype CronSpec = CronSpec(
    minute: set<int>, hour: set<int>, dayOfMonth: set<int>, month: set<int>, dayOfWeek: set<int>,
    domFree: bool, dowFree: bool)

  /** What the parser guarantees of its result. */
  ghost predicate ParsedSpec(s: CronSpec) {
    && (exists v :: v in s.minute) && (forall v :: v in s.minute ==> 0 <= v <= 59)
    && (exists v :: v in s.hour) && (forall v :: v in s.hour ==> 0 <= v <= 23)
    && (exists v :: v in s.dayOfMonth) && (forall v :: v in s.dayOfMonth ==> 1 <= v <= 31)
    && (exists v :: v in s.month) && (forall v :: v in s.month ==> 1 <= v <= 12)
    && (exists v :: v in s.dayOfWeek) && (forall v :: v in s.dayOfWeek ==> 0 <= v <= 6)
    && (s.domFree ==> forall v :: 1 <= v <= 31 ==> v in s.dayOfMonth)
    && (s.dowFree ==> forall v :: 0 <= v <= 6 ==> v in s.dayOfWeek)
  }

  /** A local wall-clock minute; `weekday` counts from Monday = 0. */
  datatype LocalTime = LocalTime(minute: int, hour: int, day: int, month: int, weekday: int)

  predicate Matches(s: CronSpec, t: LocalTime) {
    && t.minute in s.minute && t.hour in s.hour && t.month in s.month
    && var domMatches, dowMatches := t.day in s.dayOfMonth, (t.weekday + 1) % 7 in s.dayOfWeek;
       if s.domFree && s.dowFree then true
       else if s.domFree then dowMatches
       else if s.dowFree then domMatches
       else domMatches || dowMatches
  }

  /** The first minute that begins after second `after`, both in UTC. */
  function FirstMinute(after: int): int {
    after / 60 + 1
  }

  /** Scans the minutes after `after` in the time zone `local`, which maps a UTC minute to its local
      time; None is the error that no minute was found. The result is the least match. */
  method NextCronFire(spec: CronSpec, after: int, local: int -> LocalTime) returns (r: Option<int>)
    ensures r.Some? ==> 60 * r.value > after && Matches(spec, local(r.value))
    ensures r.Some? ==> forall m :: after < 60 * m && m < r.value ==> !Matches(spec, local(m))
    ensures r.None? <==>
        forall m :: FirstMinute(after) <= m < FirstMinute(after) + SCAN_MINUTES ==> !Matches(spec, local(m))
  {
    var current := after / 60 + 1;
    for k := 0 to SCAN_MINUTES
      invariant current == FirstMinute(after) + k
      invariant forall m :: FirstMinute(after) <= m < current ==> !Matches(spec, local(m))
    {
      if Matches(spec, local(current)) {
        return Some(current);
      }
      current := current + 1;
    }
    return None;
  }

  // ---- a fixed UTC offset ----

  predicate ValidTime(hour: int, minute: int) {
    0 <= hour <= 23 && 0 <= minute <= 59
  }

  /** A minute counted from 1 January of year 1, 00:00 local time. */
  function MinuteOf(d: Date, hour: int, minute: int): int {
    (Ordinal(d) - 1) * 1440 + 60 * hour + minute
  }

  function On(d: Date, hour: int, minute: int): LocalTime {
    LocalTime(minute, hour, d.day, d.month, (Ordinal(d) + 6) % 7)
  }

  /** The local time of a zone that is always `offset` minutes ahead of UTC. */
  ghost predicate FixedOffset(local: int -> LocalTime, offset: int) {
    forall d: Date, hour, minute :: ValidDate(d) && ValidTime(hour, minute) ==>
      local(MinuteOf(d, hour, minute) - offset) == On(d, hour, minute)
  }

  /** Every minute from year 1 on is a minute of a date. */
  lemma MinuteHasDate(k: int) returns (d: Date, hour: int, minute: int)
    requires k >= 0
    ensures ValidDate(d) && ValidTime(hour, minute) && MinuteOf(d, hour, minute) == k
    ensures Ordinal(d) == k / 1440 + 1
  {
    d, hour, minute := DateOf(k / 1440 + 1), k / 60 % 24, k % 60;
    DigitsOfMinute(k);
  }

  lemma DigitsOfMinute(k: int)
    ensures k == k / 1440 * 1440 + 60 * (k / 60 % 24) + k % 60
    ensures 0 <= k / 60 % 24 <= 23 && 0 <= k % 60 <= 59
  {
    assert k / 60 / 24 == k / 1440;
    assert k / 60 == k / 60 / 24 * 24 + k / 60 % 24;
  }

  /** The local time at an offset, given the date of each day number. */
  function Clock(dates: int -> Date, offset: int): int -> LocalTime {
    (m: int) => var k := m + offset; On(dates(k / 1440 + 1), k / 60 % 24, k % 60)
  }

  function Dates(): int -> Date {
    (n: int) => if n < 1 then Date(1, 1, 1) else DateOf(n)
  }

  /** There is such a local time for every offset. */
  lemma ClockHasFixedOffset(offset: int)
    ensures FixedOffset(Clock(Dates(), offset), offset)
  {
    forall d: Date | ValidDate(d)
      ensures DateIsKept(Dates(), d)
    {
      DateOfOrdinal(d);
    }
    ClockOfDates(Dates(), offset);
  }

  predicate DateIsKept(dates: int -> Date, d: Date) {
    Ordinal(d) >= 1 && dates(Ordinal(d)) == d
  }

  lemma ClockOfDates(dates: int -> Date, offset: int)
    requires forall d :: ValidDate(d) ==> DateIsKept(dates, d)
    ensures FixedOffset(Clock(dates, offset), offset)
  {
    forall d: Date, hour, minute | ValidDate(d) && ValidTime(hour, minute)
      ensures Clock(dates, offset)(MinuteOf(d, hour, minute) - offset) == On(d, hour, minute)
    {
      assert DateIsKept(dates, d);
      ClockAtDate(dates, offset, d, hour, minute);
    }
  }

  lemma ClockAtDate(dates: int -> Date, offset: int, d: Date, hour: int, minute: int)
    requires ValidTime(hour, minute) && Ordinal(d) >= 1 && dates(Ordinal(d)) == d
    ensures Clock(dates, offset)(MinuteOf(d, hour, minute) - offset) == On(d, hour, minute)
  {
    SplitMinute(Ordinal(d), hour, minute);
  }

  lemma SplitMinute(n: int, hour: int, minute: int)
    requires n >= 1 && ValidTime(hour, minute)
    ensures var k := (n - 1) * 1440 + 60 * hour + minute;
            k >= 0 && k / 1440 == n - 1 && k % 60 == minute && k / 60 % 24 == hour
  {
    var k := (n - 1) * 1440 + 60 * hour + minute;
    var h := (n - 1) * 24 + hour;
    assert k == 60 * h + minute;
    assert k / 60 == h && k % 60 == minute;
    assert h == 24 * (n - 1) + hour;
    assert h % 24 == hour;
    assert k == 1440 * (n - 1) + (60 * hour + minute);
  }

  lemma WindowHolds(k: int, b0: int, b1: int, n: int)
    requires b0 < k / 1440 + 1 <= b1 <= b0 + 366 && b1 < n <= b1 + 366
    ensures k < (n - 1) * 1440 && n * 1440 <= k + SCAN_MINUTES
  {
  }

  /** The scan is sure to contain the dates of the year after the one it starts in. */
  lemma NextYearIsScanned(k: int, today: Date, d: Date)
    requires ValidDate(today) && Ordinal(today) == k / 1440 + 1
    requires ValidDate(d) && d.year == today.year + 1
    ensures k < (Ordinal(d) - 1) * 1440 && Ordinal(d) * 1440 <= k + SCAN_MINUTES
  {
    WithinYear(today);
    WithinYear(d);
    WindowHolds(k, DaysBeforeYear(today.year), DaysBeforeYear(d.year), Ordinal(d));
  }

  /** Some month of the expression has a day that the day fields accept whatever its weekday. */
  predicate HasCommonDay(s: CronSpec) {
    exists m, d :: m in s.month && d in s.dayOfMonth && d <= CommonMonthLength(m)
  }

  lemma ShiftToWeekday(first: int, w: int)
    requires 0 <= w <= 6
    ensures 0 <= (w - first) % 7 <= 6 && (first + (w - first) % 7) % 7 == w
  {
  }

  lemma FirstWeek(y: int, m: int, shift: int)
    requires y >= 1 && 1 <= m <= 12 && 0 <= shift <= 6
    ensures ValidDate(Date(y, m, 1 + shift))
    ensures Ordinal(Date(y, m, 1 + shift)) == Ordinal(Date(y, m, 1)) + shift
  {
  }

  /** A day of year `y` that the day fields accept, in a month of the expression. */
  lemma MatchingDay(s: CronSpec, y: int) returns (d: Date)
    requires ParsedSpec(s) && y >= 1 && (!s.dowFree || HasCommonDay(s))
    ensures ValidDate(d) && d.year == y && d.month in s.month
    ensures !s.dowFree ==> Ordinal(d) % 7 in s.dayOfWeek
    ensures s.dowFree ==> d.day in s.dayOfMonth
  {
    if s.dowFree {
      var m, day :| m in s.month && day in s.dayOfMonth && day <= CommonMonthLength(m);
      d := Date(y, m, day);
    } else {
      var m :| m in s.month;
      var w :| w in s.dayOfWeek;
      var first := Ordinal(Date(y, m, 1));
      ShiftToWeekday(first, w);
      FirstWeek(y, m, (w - first) % 7);
      d := Date(y, m, 1 + (w - first) % 7);
    }
  }

  lemma WeekdayOf(n: int)
    ensures ((n + 6) % 7 + 1) % 7 == n % 7
  {
  }

  lemma DateFitsFreeFields(s: CronSpec, d: Date)
    requires ParsedSpec(s) && ValidDate(d)
    ensures s.domFree ==> d.day in s.dayOfMonth
    ensures s.dowFree ==> Ordinal(d) % 7 in s.dayOfWeek
  {
  }

  /** When a local minute matches: its minute, hour and month are in the fields, and its day meets both day
      fields, or at least one of them when both are restricted. The weekday counts from Sunday = 0. */
  lemma MatchesExactly(s: CronSpec, d: Date, hour: int, minute: int)
    requires ParsedSpec(s) && ValidDate(d)
    ensures Matches(s, On(d, hour, minute)) <==>
      && minute in s.minute && hour in s.hour && d.month in s.month
      && if s.domFree || s.dowFree then d.day in s.dayOfMonth && Ordinal(d) % 7 in s.dayOfWeek
         else d.day in s.dayOfMonth || Ordinal(d) % 7 in s.dayOfWeek
  {
    DateFitsFreeFields(s, d);
    WeekdayOf(Ordinal(d));
  }

  function Numbers(lo: int, hi: int): (r: set<int>)
    ensures forall n :: n in r <==> lo <= n <= hi
    decreases hi - lo + 1
  {
    if hi < lo then {} else Numbers(lo, hi - 1) + {hi}
  }

  /** The expression with one of its day fields replaced by a star. */
  function AnyDayOfWeek(s: CronSpec): CronSpec {
    s.(dayOfWeek := Numbers(0, 6), dowFree := true)
  }

  function AnyDayOfMonth(s: CronSpec): CronSpec {
    s.(dayOfMonth := Numbers(1, 31), domFree := true)
  }

  lemma AnyDayOfWeekMatches(s: CronSpec, d: Date, hour: int, minute: int)
    requires ParsedSpec(s) && ValidDate(d) && !s.domFree
    ensures ParsedSpec(AnyDayOfWeek(s))
    ensures Matches(AnyDayOfWeek(s), On(d, hour, minute)) <==>
      minute in s.minute && hour in s.hour && d.month in s.month && d.day in s.dayOfMonth
  {
    assert 0 in AnyDayOfWeek(s).dayOfWeek;
  }

  lemma AnyDayOfMonthMatches(s: CronSpec, d: Date, hour: int, minute: int)
    requires ParsedSpec(s) && ValidDate(d) && !s.dowFree
    ensures ParsedSpec(AnyDayOfMonth(s))
    ensures Matches(AnyDayOfMonth(s), On(d, hour, minute)) <==>
      minute in s.minute && hour in s.hour && d.month in s.month && Ordinal(d) % 7 in s.dayOfWeek
  {
    assert 1 in AnyDayOfMonth(s).dayOfMonth;
    WeekdayOf(Ordinal(d));
  }

  /** With both day fields restricted, the minutes are those of the expression with a star for the day of week
      and those of the expression with a star for the day of month. */
  lemma RestrictedDaysAreUnited(s: CronSpec, d: Date, hour: int, minute: int)
    requires ParsedSpec(s) && ValidDate(d) && !s.domFree && !s.dowFree
    ensures ParsedSpec(AnyDayOfWeek(s)) && ParsedSpec(AnyDayOfMonth(s))
    ensures Matches(s, On(d, hour, minute)) <==>
      Matches(AnyDayOfWeek(s), On(d, hour, minute)) || Matches(AnyDayOfMonth(s), On(d, hour, minute))
  {
    MatchesExactly(s, d, hour, minute);
    AnyDayOfWeekMatches(s, d, hour, minute);
    AnyDayOfMonthMatches(s, d, hour, minute);
  }

  lemma DateMatches(s: CronSpec, d: Date, hour: int, minute: int)
    requires ParsedSpec(s) && hour in s.hour && minute in s.minute && d.month in s.month
    requires !s.dowFree ==> Ordinal(d) % 7 in s.dayOfWeek
    requires s.dowFree ==> d.day in s.dayOfMonth
    ensures Matches(s, On(d, hour, minute))
  {
    WeekdayOf(Ordinal(d));
  }

  /** The minute of the scan, counted in local time, that matches: when the day of week is restricted, or
      when some month has a day of the expression in every year. */
  lemma MatchInNextYear(s: CronSpec, first: int) returns (d: Date, hour: int, minute: int)
    requires ParsedSpec(s) && first >= 0 && (!s.dowFree || HasCommonDay(s))
    ensures ValidDate(d) && ValidTime(hour, minute) && Matches(s, On(d, hour, minute))
    ensures first <= MinuteOf(d, hour, minute) < first + SCAN_MINUTES
  {
    var today, h, mi := MinuteHasDate(first);
    d := MatchingDay(s, today.year + 1);
    NextYearIsScanned(first, today, d);
    hour :| hour in s.hour;
    minute :| minute in s.minute;
    DateMatches(s, d, hour, minute);
  }

  /** Some 29 February of a leap year, at a minute of the expression, lies inside the scan from `first`. */
  ghost predicate LeapDayInScan(s: CronSpec, first: int) {
    exists y, hour, minute ::
      && y >= 1 && Leap(y) && hour in s.hour && minute in s.minute
      && first <= MinuteOf(Date(y, 2, 29), hour, minute) < first + SCAN_MINUTES
  }

  /** The expression names 29 February. */
  predicate NamesLeapDay(s: CronSpec) {
    2 in s.month && 29 in s.dayOfMonth
  }

  lemma LeapDayMatches(s: CronSpec, first: int) returns (d: Date, hour: int, minute: int)
    requires ParsedSpec(s) && s.dowFree && NamesLeapDay(s) && LeapDayInScan(s, first)
    ensures ValidDate(d) && ValidTime(hour, minute) && Matches(s, On(d, hour, minute))
    ensures first <= MinuteOf(d, hour, minute) < first + SCAN_MINUTES
  {
    var y, h, mi :|
      && y >= 1 && Leap(y) && h in s.hour && mi in s.minute
      && first <= MinuteOf(Date(y, 2, 29), h, mi) < first + SCAN_MINUTES;
    d, hour, minute := Date(y, 2, 29), h, mi;
    DateMatches(s, d, hour, minute);
  }

  /** Without a weekday and without a day that every year has, only 29 February can match. */
  lemma OnlyLeapDayMatches(s: CronSpec, d: Date, hour: int, minute: int)
    requires ParsedSpec(s) && s.dowFree && !HasCommonDay(s)
    requires ValidDate(d) && Matches(s, On(d, hour, minute))
    ensures NamesLeapDay(s) && d == Date(d.year, 2, 29) && Leap(d.year)
    ensures hour in s.hour && minute in s.minute
  {
    var month :| month in s.month;
    assert s.domFree ==> 1 in s.dayOfMonth && 1 <= CommonMonthLength(month);
    assert d.month in s.month && d.day in s.dayOfMonth;
  }

  lemma ShiftedMatch(s: CronSpec, local: int -> LocalTime, offset: int, first: int, d: Date, hour: int, minute: int)
    requires FixedOffset(local, offset) && ValidDate(d) && ValidTime(hour, minute) && Matches(s, On(d, hour, minute))
    requires first + offset <= MinuteOf(d, hour, minute) < first + offset + SCAN_MINUTES
    ensures exists m :: first <= m < first + SCAN_MINUTES && Matches(s, local(m))
  {
    var m := MinuteOf(d, hour, minute) - offset;
    assert local(m) == On(d, hour, minute);
  }

  /** When the search in a zone with a fixed offset succeeds, for every expression: exactly when the day of
      week is restricted, or some month has a day of the expression every year, or the expression names
      29 February and one lies inside the scan. */
  lemma ScanDecided(s: CronSpec, local: int -> LocalTime, offset: int, first: int)
    requires ParsedSpec(s) && FixedOffset(local, offset) && first + offset >= 0
    ensures (exists m :: first <= m < first + SCAN_MINUTES && Matches(s, local(m)))
      <==> !s.dowFree || HasCommonDay(s) || (NamesLeapDay(s) && LeapDayInScan(s, first + offset))
  {
    if !s.dowFree || HasCommonDay(s) {
      var d, hour, minute := MatchInNextYear(s, first + offset);
      ShiftedMatch(s, local, offset, first, d, hour, minute);
    } else if NamesLeapDay(s) && LeapDayInScan(s, first + offset) {
      var d, hour, minute := LeapDayMatches(s, first + offset);
      ShiftedMatch(s, local, offset, first, d, hour, minute);
    } else {
      forall m | first <= m < first + SCAN_MINUTES
        ensures !Matches(s, local(m))
      {
        OutsideLeapDays(s, local, offset, first, m);
      }
    }
  }

  lemma OutsideLeapDays(s: CronSpec, local: int -> LocalTime, offset: int, first: int, m: int)
    requires ParsedSpec(s) && FixedOffset(local, offset) && first + offset >= 0 && s.dowFree && !HasCommonDay(s)
    requires first <= m < first + SCAN_MINUTES
    ensures Matches(s, local(m)) ==> NamesLeapDay(s) && LeapDayInScan(s, first + offset)
  {
    var d, hour, minute := MinuteHasDate(m + offset);
    assert local(MinuteOf(d, hour, minute) - offset) == On(d, hour, minute);
    if Matches(s, On(d, hour, minute)) {
      OnlyLeapDayMatches(s, d, hour, minute);
      LeapDayHit(s, first + offset, d.year, hour, minute);
    }
  }

  lemma LeapDayHit(s: CronSpec, first: int, y: int, hour: int, minute: int)
    requires y >= 1 && Leap(y) && hour in s.hour && minute in s.minute
    requires first <= MinuteOf(Date(y, 2, 29), hour, minute) < first + SCAN_MINUTES
    ensures LeapDayInScan(s, first)
  {
  }

  /** The everyday cases: a star for the day of month, a restricted day of week, or a day of month
      up to 28. */
  lemma EverydayExpressionsAreFound(s: CronSpec, local: int -> LocalTime, offset: int, first: int)
    requires ParsedSpec(s) && FixedOffset(local, offset) && first + offset >= 0
    requires s.domFree || !s.dowFree || exists d :: d in s.dayOfMonth && d <= 28
    ensures exists m :: first <= m < first + SCAN_MINUTES && Matches(s, local(m))
  {
    var month :| month in s.month;
    if s.dowFree {
      var d := 1;
      if !s.domFree {
        d :| d in s.dayOfMonth && d <= 28;
      }
      assert month in s.month && d in s.dayOfMonth && d <= CommonMonthLength(month);
    }
    ScanDecided(s, local, offset, first);
  }

  /** Without a weekday, a day that every year has, or 29 February: no minute of any year matches. */
  lemma ImpossibleExpressionsNeverMatch(s: CronSpec, local: int -> LocalTime, offset: int, m: int)
    requires ParsedSpec(s) && FixedOffset(local, offset) && m + offset >= 0
    requires s.dowFree && !HasCommonDay(s) && !NamesLeapDay(s)
    ensures !Matches(s, local(m))
  {
    OutsideLeapDays(s, local, offset, m, m);
  }

  /** 29 February at midnight, whatever the weekday. */
  const LEAP_DAY := CronSpec({0}, {0}, {29}, {2}, {0, 1, 2, 3, 4, 5, 6}, false, true)

  lemma LeapDaySpec()
    ensures ParsedSpec(LEAP_DAY) && LEAP_DAY.dowFree && !HasCommonDay(LEAP_DAY)
    ensures forall hour :: hour in LEAP_DAY.hour ==> hour == 0
    ensures forall minute :: minute in LEAP_DAY.minute ==> minute == 0
  {
    var s := LEAP_DAY;
    assert 0 in s.minute && 0 in s.hour && 29 in s.dayOfMonth && 2 in s.month && 0 in s.dayOfWeek;
  }

  lemma NoLeapDayFrom2021()
    ensures !LeapDayInScan(LEAP_DAY, MinuteOf(Date(2021, 1, 1), 0, 0))
  {
    LeapDaySpec();
    forall y | y >= 1 && Leap(y)
      ensures !(MinuteOf(Date(2021, 1, 1), 0, 0) <= MinuteOf(Date(y, 2, 29), 0, 0)
                  < MinuteOf(Date(2021, 1, 1), 0, 0) + SCAN_MINUTES)
    {
      LeapDaysAround2021(y);
    }
  }

  /** 29 February alone depends on the date: from 1 January 2021 the scan stops before 2024. */
  lemma LeapDayMayBeMissed(local: int -> LocalTime, offset: int)
    requires FixedOffset(local, offset)
    ensures ParsedSpec(LEAP_DAY)
    ensures var first := MinuteOf(Date(2021, 1, 1), 0, 0) - offset;
      forall m :: first <= m < first + SCAN_MINUTES ==> !Matches(LEAP_DAY, local(m))
  {
    LeapDaySpec();
    NoLeapDayFrom2021();
    LeapDaysAround2021(2024);
    ScanDecided(LEAP_DAY, local, offset, MinuteOf(Date(2021, 1, 1), 0, 0) - offset);
  }

  lemma LeapDaysAround2021(y: int)
    requires y >= 1 && Leap(y)
    ensures Ordinal(Date(y, 2, 29)) <= 737790 || Ordinal(Date(y, 2, 29)) > 737790 + 1095
    ensures Ordinal(Date(2021, 1, 1)) == 737791
  {
    WithinYear(Date(y, 2, 29));
    if y < 2020 {
      YearsOrdered(y, 2021);
    } else if y > 2024 {
      YearsOrdered(2024, y);
    }
    assert Ordinal(Date(2024, 2, 29)) == 738945 && Ordinal(Date(2020, 2, 29)) == 737484;
  }
}
