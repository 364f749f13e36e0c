/** Month arithmetic with day clipping, on points in time of the proleptic calendar. */
module Months {
  import opened Text

  /** `time` is the time of day in microseconds. */
  datatype Moment = Moment(year: int, month: int, day: int, time: int)

  const DAY := 86_400_000_000

  predicate Leap(year: int) {
    year % 4 == 0 && (year % 100 != 0 || year % 400 == 0)
  }

  /** `calendar.monthrange(year, month)[1]`. */
  function DaysIn(year: int, month: int): (days: int)
    requires 1 <= month <= 12
    ensures 28 <= days <= 31
  {
    if month == 2 then if Leap(year) then 29 else 28
    else if month in {4, 6, 9, 11} then 30
    else 31
  }

  /** What Python's `datetime` can hold. */
  predicate Valid(m: Moment) {
    1 <= m.year <= 9999 && 1 <= m.month <= 12 && 1 <= m.day <= DaysIn(m.year, m.month) && 0 <= m.time < DAY
  }

  type Stamp = m: Moment | Valid(m) witness Moment(1, 1, 1, 0)

  /** Months since the start of year 0. */
  function Index(m: Moment): int {
    m.year * 12 + m.month - 1
  }

  /** Orders days, and `Rank` orders moments. */
  function DayRank(m: Moment): int {
    Index(m) * 32 + m.day
  }

  function Rank(m: Moment): int {
    DayRank(m) * DAY + m.time
  }

  function YearOf(index: int): int {
    index / 12
  }

  function MonthOf(index: int): (month: int)
    ensures 1 <= month <= 12
  {
    index % 12 + 1
  }

  function LastDay(index: int): int {
    DaysIn(YearOf(index), MonthOf(index))
  }

  function Clip(day: int, index: int): int {
    if day < LastDay(index) then day else LastDay(index)
  }

  /** `add_months`; none when the year leaves the calendar, where `replace` raises. */
  function AddMonths(m: Moment, months: int): Option<Moment> {
    var total := Index(m) + months;
    if 1 <= YearOf(total) <= 9999 then Some(Moment(YearOf(total), MonthOf(total), Clip(m.day, total), m.time))
    else None
  }

  lemma RankIsInjective(m: Stamp, n: Stamp)
    requires Rank(m) == Rank(n)
    ensures m == n
  {
    assert DayRank(m) == DayRank(n);
    assert Index(m) == Index(n);
  }

  lemma IndexOf(index: int, day: int, time: int)
    ensures Index(Moment(YearOf(index), MonthOf(index), day, time)) == index
  {
  }

  /** The result is a date of the calendar, as many months on, at the same time of day. */
  lemma AddMonthsIsValid(m: Moment, months: int)
    requires Valid(m) && AddMonths(m, months).Some?
    ensures var r := AddMonths(m, months).value;
            Valid(r) && Index(r) == Index(m) + months && r.time == m.time
            && r.day == (if m.day <= DaysIn(r.year, r.month) then m.day else DaysIn(r.year, r.month))
  {
    IndexOf(Index(m) + months, Clip(m.day, Index(m) + months), m.time);
  }

  /** The lengths of the months: they alternate before and after the turn of July, and February has 29 days in every
      fourth year but three of the four full centuries. */
  lemma MonthsHaveDays(year: int, month: int)
    requires 1 <= month <= 12
    ensures month != 2 ==> DaysIn(year, month) == 30 + (month + month / 8) % 2
    ensures DaysIn(year, 2) == if year % 4 != 0 || (year % 100 == 0 && year % 400 != 0) then 28 else 29
  {
  }

  /** As many months on, by years and months; it fails exactly outside the years 1 to 9999. */
  lemma AddMonthsExactly(m: Moment, months: int)
    requires Valid(m)
    ensures AddMonths(m, months).Some? <==> 12 <= m.year * 12 + m.month - 1 + months < 120_000
    ensures AddMonths(m, months).Some? ==>
              var r := AddMonths(m, months).value;
              && 1 <= r.month <= 12 && r.year * 12 + r.month == m.year * 12 + m.month + months
              && (r.day == m.day || (r.day < m.day && r.day == DaysIn(r.year, r.month)))
  {
    hide Leap;
  }

  /** Adding in two steps is adding at once exactly unless the stop in between clips the day further. */
  lemma AddMonthsComposes(m: Moment, a: int, b: int)
    requires Valid(m) && AddMonths(m, a).Some? && AddMonths(AddMonths(m, a).value, b).Some?
    ensures AddMonths(AddMonths(m, a).value, b) == AddMonths(m, a + b) <==>
              m.day <= LastDay(Index(m) + a) || LastDay(Index(m) + a + b) <= LastDay(Index(m) + a)
    ensures m.day <= 28 ==> AddMonths(AddMonths(m, a).value, b) == AddMonths(m, a + b)
  {
    AddMonthsIsValid(m, a);
    hide DaysIn, YearOf, MonthOf;
  }

  /** The order of days is kept. */
  lemma AddMonthsKeepsDayOrder(m: Moment, n: Moment, months: int)
    requires Valid(m) && Valid(n) && DayRank(m) <= DayRank(n)
    requires AddMonths(m, months).Some? && AddMonths(n, months).Some?
    ensures DayRank(AddMonths(m, months).value) <= DayRank(AddMonths(n, months).value)
  {
    AddMonthsIsValid(m, months);
    AddMonthsIsValid(n, months);
  }

  /** Two days of one month that are clipped to the same day, the earlier at a later time of day. */
  predicate ClipSwaps(m: Moment, n: Moment, months: int) {
    Index(m) == Index(n) && m.day < n.day && m.day >= LastDay(Index(m) + months) && m.time > n.time
  }

  /** The order of moments is kept exactly unless clipping makes the days equal. */
  lemma AddMonthsKeepsOrderExactly(m: Moment, n: Moment, months: int)
    requires Valid(m) && Valid(n) && Rank(m) <= Rank(n)
    requires AddMonths(m, months).Some? && AddMonths(n, months).Some?
    ensures Rank(AddMonths(m, months).value) <= Rank(AddMonths(n, months).value) <==> !ClipSwaps(m, n, months)
  {
    AddMonthsIsValid(m, months);
    AddMonthsIsValid(n, months);
  }

  // The retention period against the cutoff of the scan

  predicate IsLeapDay(m: Moment) {
    m.month == 2 && m.day == 29
  }

  /** Three years on, or back, only the leap day is clipped. */
  lemma ThreeYears(m: Moment, months: int)
    requires Valid(m) && months in {36, -36} && AddMonths(m, months).Some?
    ensures var r := AddMonths(m, months).value;
            r == m.(year := m.year + months / 12, day := if IsLeapDay(m) then 28 else m.day)
  {
    assert YearOf(Index(m) + months) == m.year + months / 12 && MonthOf(Index(m) + months) == m.month;
    if m.month == 2 {
      assert Leap(m.year) ==> !Leap(m.year + months / 12);
    }
  }

  /** The leap days on either side of the cutoff. */
  predicate LeapGap(d: Moment, now: Moment) {
    || (IsLeapDay(d) && now.year == d.year + 3 && now.month == 2 && now.day == 28 && now.time >= d.time)
    || (IsLeapDay(now) && d.year == now.year - 3 && d.month == 2 && d.day == 28 && d.time > now.time)
  }

  lemma RankOrder(m: Moment, n: Moment)
    requires Valid(m) && Valid(n)
    ensures Rank(m) <= Rank(n) <==> DayRank(m) < DayRank(n) || (DayRank(m) == DayRank(n) && m.time <= n.time)
  {
    hide DayRank, DaysIn;
  }

  lemma DayRankOrder(m: Moment, n: Moment)
    requires Valid(m) && Valid(n)
    ensures DayRank(m) <= DayRank(n) <==> Index(m) < Index(n) || (Index(m) == Index(n) && m.day <= n.day)
    ensures DayRank(m) == DayRank(n) <==> Index(m) == Index(n) && m.day == n.day
  {
    hide Index, DaysIn;
  }

  lemma IndexOrder(m: Moment, n: Moment)
    requires Valid(m) && Valid(n)
    ensures Index(m) <= Index(n) <==> m.year < n.year || (m.year == n.year && m.month <= n.month)
    ensures Index(m) == Index(n) <==> m.year == n.year && m.month == n.month
  {
    hide DaysIn;
  }

  /** Moments compare by year, month, day and time, in this order. */
  predicate DayBefore(m: Moment, n: Moment) {
    m.year < n.year || (m.year == n.year && (m.month < n.month || (m.month == n.month && m.day < n.day)))
  }

  predicate SameDay(m: Moment, n: Moment) {
    m.year == n.year && m.month == n.month && m.day == n.day
  }

  lemma MomentOrder(m: Moment, n: Moment)
    requires Valid(m) && Valid(n)
    ensures DayRank(m) <= DayRank(n) <==> DayBefore(m, n) || SameDay(m, n)
    ensures Rank(m) <= Rank(n) <==> DayBefore(m, n) || (SameDay(m, n) && m.time <= n.time)
  {
    RankOrder(m, n);
    DayRankOrder(m, n);
    IndexOrder(m, n);
    hide Rank, DayRank, Index, DaysIn;
  }

  /** Due dates and cutoffs, by their parts. */
  lemma DueAndCutoff(d: Moment, now: Moment)
    requires Valid(d) && Valid(now) && AddMonths(d, 36).Some? && AddMonths(now, -36).Some?
    ensures var due, cutoff := AddMonths(d, 36).value, AddMonths(now, -36).value;
            && Valid(due) && due == d.(year := d.year + 3, day := if IsLeapDay(d) then 28 else d.day)
            && Valid(cutoff) && cutoff == now.(year := now.year - 3, day := if IsLeapDay(now) then 28 else now.day)
  {
    ThreeYears(d, 36);
    ThreeYears(now, -36);
    AddMonthsIsValid(d, 36);
    AddMonthsIsValid(now, -36);
    hide DaysIn, Leap, AddMonths;
  }

  /** 29 February is the last day of its month. */
  lemma LeapDayIsLast(m: Moment)
    requires Valid(m) && m.month == 2
    ensures m.day <= 29
  {
  }

  /** What is due lies before the cutoff, and the other way round, exactly except in the leap gap; there it is due
      but not before the cutoff. */
  lemma CutoffIsExact(d: Moment, now: Moment)
    requires Valid(d) && Valid(now) && AddMonths(d, 36).Some? && AddMonths(now, -36).Some?
    ensures var due, cutoff := AddMonths(d, 36).value, AddMonths(now, -36).value;
            && (Rank(d) <= Rank(cutoff) ==> Rank(due) <= Rank(now))
            && (Rank(due) <= Rank(now) && !(Rank(d) <= Rank(cutoff)) <==> LeapGap(d, now))
  {
    DueAndCutoff(d, now);
    var due, cutoff := AddMonths(d, 36).value, AddMonths(now, -36).value;
    MomentOrder(d, cutoff);
    MomentOrder(due, now);
    if d.month == 2 {
      LeapDayIsLast(d);
    }
    if now.month == 2 {
      LeapDayIsLast(now);
    }
    hide Valid, DaysIn, Leap, AddMonths, Rank, DayRank, Index;
  }

  /** By days, the gap is the leap day alone. */
  lemma CutoffIsExactByDay(d: Moment, now: Moment)
    requires Valid(d) && Valid(now) && AddMonths(d, 36).Some? && AddMonths(now, -36).Some?
    ensures var due, cutoff := AddMonths(d, 36).value, AddMonths(now, -36).value;
            (DayRank(due) <= DayRank(now) <==> DayRank(d) <= DayRank(cutoff))
            <==> !(IsLeapDay(d) && now.year == d.year + 3 && now.month == 2 && now.day == 28)
  {
    DueAndCutoff(d, now);
    var due, cutoff := AddMonths(d, 36).value, AddMonths(now, -36).value;
    MomentOrder(d, cutoff);
    MomentOrder(due, now);
    if d.month == 2 {
      LeapDayIsLast(d);
    }
    if now.month == 2 {
      LeapDayIsLast(now);
    }
    hide Valid, DaysIn, Leap, AddMonths, Rank, DayRank, Index;
  }
}
