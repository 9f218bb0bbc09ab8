/**
 The billing calendar: when a plan runs out, when its traffic resets, and which daily rows the current
 period bills. All three step whole months with `AddDate`, whose overflowing days make the step forward
 and the step back neither inverse nor monotone; the lemmas say exactly by how much.
 */
module Billing {
  import opened Calendar
  import opened Wrappers

  const MONTH := 0
  const QUARTER := 1
  const HALF_YEAR := 2
  const YEAR := 3

  predicate Known(period: int) {
    MONTH <= period <= YEAR
  }

  /** The months in a known period. */
  function Months(period: int): int
    requires Known(period)
  {
    [1, 3, 6, 12][period]
  }

  // ----- the code's three calendar functions

  function PlanPeriodEnd(from: Moment, period: Option<int>): Moment {
    match period
    case None => from
    case Some(p) =>
      if p == MONTH then AddDate(from, 0, 1, 0)
      else if p == QUARTER then AddDate(from, 0, 3, 0)
      else if p == HALF_YEAR then AddDate(from, 0, 6, 0)
      else if p == YEAR then AddDate(from, 1, 0, 0)
      else from
  }

  function NextResetTime(from: Moment, period: int): Moment {
    if period == MONTH then AddDate(from, 0, 1, 0)
    else if period == QUARTER then AddDate(from, 0, 3, 0)
    else if period == HALF_YEAR then AddDate(from, 0, 6, 0)
    else if period == YEAR then AddDate(from, 1, 0, 0)
    else from
  }

  datatype Window = Window(from: Moment, to: Moment) {
    predicate Contains(t: Moment) {
      from.AtMost(t) && t.AtMost(to)
    }
  }

  /** The window billed up to a reset mark; it starts a day early because daily rows are dated. */
  function BillingPeriod(reset: Moment, period: int): Window {
    var from :=
      if period == MONTH then AddDate(reset, 0, -1, -1)
      else if period == QUARTER then AddDate(reset, 0, -3, -1)
      else if period == HALF_YEAR then AddDate(reset, 0, -6, -1)
      else if period == YEAR then AddDate(reset, -1, 0, -1)
      else reset;
    Window(from, reset)
  }

  // ----- how far the step forward goes

  lemma StepIsMonths(t: Moment, period: int)
    requires Known(period)
    ensures NextResetTime(t, period) == PlanPeriodEnd(t, Some(period)) == AddDate(t, 0, Months(period), 0)
    ensures BillingPeriod(t, period) == Window(AddDate(t, 0, -Months(period), -1), t)
  {
  }

  /** A period that is none of the four, and a missing one, move nothing: the plan ends and the mark lies at once. */
  lemma UnknownPeriodsStandStill(t: Moment, period: int)
    requires !(0 <= period <= 3)
    ensures PlanPeriodEnd(t, None) == PlanPeriodEnd(t, Some(period)) == NextResetTime(t, period) == t
    ensures BillingPeriod(t, period) == Window(t, t)
  {
  }

  /** The pinned surprise: a monthly plan taken out on 31 January runs past the end of February. */
  lemma JanuaryPlanEndsInMarch(year: int, clock: Clock)
    ensures var leap := year % 4 == 0 && (year % 100 != 0 || year % 400 == 0);
            PlanPeriodEnd(Date(year, 1, 31, clock), Some(MONTH)) == Date(year, 3, if leap then 2 else 3, clock)
  {
    hide FirstDay, MonthLength, MonthOf;
    var january := 12 * year;
    OtherLengths(year, 1);
    FebruaryLength(year);
    MonthUnique(FirstDay(january) + 30, january);
    NextMonth(january + 1);
  }

  /** Days before month `j` of two consecutive years, the first and second leap or not. */
  function DaysBefore(j: int, firstLeap: bool, secondLeap: bool): int
    requires 0 <= j <= 24
  {
    [0, 31, 59, 90, 120, 151, 181, 212, 243, 273, 304, 334,
     365, 396, 424, 455, 485, 516, 546, 577, 608, 638, 669, 699, 730][j]
    + (if firstLeap && j >= 2 then 1 else 0) + (if secondLeap && j >= 14 then 1 else 0)
  }

  lemma {:induction false} FirstDayFromYear(year: int, j: nat)
    requires j <= 24
    ensures FirstDay(12 * year + j) == FirstDay(12 * year) + DaysBefore(j, IsLeap(year), IsLeap(year + 1))
  {
    if j > 0 {
      FirstDayFromYear(year, j - 1);
      NextMonth(12 * year + j - 1);
      LengthInYear(year, j - 1);
    }
  }

  lemma LengthInYear(year: int, j: nat)
    requires j < 24
    ensures MonthLength(12 * year + j) ==
            DaysBefore(j + 1, IsLeap(year), IsLeap(year + 1)) - DaysBefore(j, IsLeap(year), IsLeap(year + 1))
  {
    var month := 12 * year + j;
    if j < 12 {
      assert month / 12 == year && month % 12 == j;
    } else {
      assert month / 12 == year + 1 && month % 12 == j - 12;
    }
  }

  /** The days in the months of a known period, from any month on. */
  lemma Span(month: int, period: int)
    requires Known(period)
    ensures var days := FirstDay(month + Months(period)) - FirstDay(month);
            && (period == MONTH ==> 28 <= days <= 31)
            && (period == QUARTER ==> 89 <= days <= 92)
            && (period == HALF_YEAR ==> 181 <= days <= 184)
            && (period == YEAR ==> 365 <= days <= 366)
  {
    SpanInYear(month / 12, month % 12, period);
  }

  lemma SpanInYear(year: int, j: nat, period: int)
    requires j < 12 && Known(period)
    ensures var days := FirstDay(12 * year + j + Months(period)) - FirstDay(12 * year + j);
            && (period == MONTH ==> 28 <= days <= 31)
            && (period == QUARTER ==> 89 <= days <= 92)
            && (period == HALF_YEAR ==> 181 <= days <= 184)
            && (period == YEAR ==> 365 <= days <= 366)
  {
    FirstDayFromYear(year, j);
    FirstDayFromYear(year, j + Months(period));
    NoTwoLeapYears(year);
    SpanTable(j, period, IsLeap(year), IsLeap(year + 1));
  }

  lemma NoTwoLeapYears(year: int)
    ensures !(IsLeap(year) && IsLeap(year + 1))
  {
  }

  lemma SpanTable(j: nat, period: int, firstLeap: bool, secondLeap: bool)
    requires j < 12 && Known(period) && !(firstLeap && secondLeap)
    ensures var days := DaysBefore(j + Months(period), firstLeap, secondLeap) - DaysBefore(j, firstLeap, secondLeap);
            && (period == MONTH ==> 28 <= days <= 31)
            && (period == QUARTER ==> 89 <= days <= 92)
            && (period == HALF_YEAR ==> 181 <= days <= 184)
            && (period == YEAR ==> 365 <= days <= 366)
  {
  }

  /**
   The advance keeps the clock, depends only on the month, and lies in the period's bounds.
   */
  lemma Advance(t: Moment, period: int)
    requires Known(period)
    ensures var month := MonthOf(t.day);
            var days := FirstDay(month + Months(period)) - FirstDay(month);
            && NextResetTime(t, period) == t.PlusDays(days)
            && (period == MONTH ==> 28 <= days <= 31)
            && (period == QUARTER ==> 89 <= days <= 92)
            && (period == HALF_YEAR ==> 181 <= days <= 184)
            && (period == YEAR ==> 365 <= days <= 366)
  {
    hide FirstDay, MonthLength, MonthOf;
    AddMonths(t, Months(period));
    Span(MonthOf(t.day), period);
  }

  // ----- stepping forward and back again

  /**
   The window up to the mark of a plan taken out at `t` starts exactly one day before `t` when `t`'s day of
   the month exists in the target month. When it does not, the mark has spilled into the month after and the
   window starts late, by the difference of the two months' lengths less one: up to two days after `t`.
   */
  lemma WindowStart(t: Moment, period: int)
    requires Known(period)
    ensures var start := BillingPeriod(PlanPeriodEnd(t, Some(period)), period).from;
            var source := MonthOf(t.day);
            var late := MonthLength(source) - MonthLength(source + Months(period)) - 1;
            && start == t.PlusDays(if DayExists(t, Months(period)) then -1 else late)
            && (!DayExists(t, Months(period)) ==> 0 <= late <= 2)
  {
    hide FirstDay, MonthLength, MonthOf;
    StepIsMonths(t, period);
    AddMonths(t, Months(period));
    NextMonth(MonthOf(t.day));
  }

  /** Some window does start two days late: a plan taken out on 31 January of a common year. */
  lemma WindowStartsTwoDaysLate(year: int, clock: Clock)
    requires !IsLeap(year)
    ensures var t := Date(year, 1, 31, clock);
            BillingPeriod(PlanPeriodEnd(t, Some(MONTH)), MONTH).from == t.PlusDays(2)
  {
    hide FirstDay, MonthLength, MonthOf;
    var january := 12 * year;
    LengthInYear(year, 0);
    LengthInYear(year, 1);
    MonthUnique(FirstDay(january) + 30, january);
    WindowStart(Date(year, 1, 31, clock), MONTH);
  }

  // ----- the step forward is not monotone, but nearly

  /** Where in the month after the target an overflowing step lands, counted from 1; 0 when it does not. */
  function Spill(t: Moment, period: int): int
    requires Known(period)
  {
    if DayExists(t, Months(period)) then 0
    else DayOfMonth(t.day) - MonthLength(MonthOf(t.day) + Months(period))
  }

  /**
   A later moment gets an earlier mark exactly when the earlier step spills and the later moment lies in
   the very next month, on an earlier day of it (or at an earlier time of that day) than the spill.
   */
  lemma MarksOutOfOrder(earlier: Moment, later: Moment, period: int)
    requires Known(period) && earlier.AtMost(later)
    ensures NextResetTime(later, period).Before(NextResetTime(earlier, period)) <==>
            && MonthOf(later.day) == MonthOf(earlier.day) + 1
            && Moment(DayOfMonth(later.day), later.clock).Before(Moment(Spill(earlier, period), earlier.clock))
  {
    hide FirstDay, MonthLength, MonthOf;
    MonthOrder(earlier.day, later.day);
    var source, after := MonthOf(earlier.day), MonthOf(later.day);
    TargetsInOrder(source + Months(period), after + Months(period));
    MarkDay(earlier, period);
    MarkDay(later, period);
  }

  /** It happens: rolled on 31 January of a common year, a monthly mark is later than when rolled on 1 February. */
  lemma MarksDoGoBack(year: int, clock: Clock)
    requires !IsLeap(year)
    ensures var earlier, later := Date(year, 1, 31, clock), Date(year, 2, 1, clock);
            && earlier.Before(later)
            && NextResetTime(later, MONTH) == NextResetTime(earlier, MONTH).PlusDays(-2)
  {
    hide FirstDay, MonthLength, MonthOf, IsLeap;
    var january := 12 * year;
    var earlier, later := Date(year, 1, 31, clock), Date(year, 2, 1, clock);
    LengthInYear(year, 0);
    LengthInYear(year, 1);
    NextMonth(january);
    NextMonth(january + 1);
    MonthUnique(earlier.day, january);
    MonthUnique(later.day, january + 1);
    MarkDay(earlier, MONTH);
    MarkDay(later, MONTH);
  }

  lemma MarkDay(t: Moment, period: int)
    requires Known(period)
    ensures NextResetTime(t, period) ==
            Moment(FirstDay(MonthOf(t.day) + Months(period)) + DayOfMonth(t.day) - 1, t.clock)
  {
  }

  lemma TargetsInOrder(a: int, b: int)
    requires a <= b
    ensures b == a + 1 ==> FirstDay(b) == FirstDay(a) + MonthLength(a)
    ensures b > a + 1 ==> FirstDay(b) >= FirstDay(a) + MonthLength(a) + 28
  {
    NextMonth(a);
    if b > a + 1 {
      MonthsInOrder(a + 1, b);
    }
  }

  /** Marks written later are at most three days earlier, and never earlier when the first step does not spill. */
  lemma MarksNearlyMonotone(earlier: Moment, later: Moment, period: int)
    requires Known(period) && earlier.AtMost(later)
    ensures NextResetTime(earlier, period).PlusDays(-3).Before(NextResetTime(later, period))
    ensures DayExists(earlier, Months(period)) ==>
              NextResetTime(earlier, period).AtMost(NextResetTime(later, period))
  {
    hide FirstDay, MonthLength, MonthOf;
    MarksOutOfOrder(earlier, later, period);
    AddMonths(earlier, Months(period));
    AddMonths(later, Months(period));
    NextMonth(MonthOf(earlier.day) + Months(period));
  }
}
