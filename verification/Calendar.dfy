/**
 The proleptic Gregorian calendar on one fixed-offset clock, and Go's `time.Time.AddDate` on it.

 Months are numbered `12 * year + (month - 1)`, so that adding months is adding integers. Days are
 numbered from the first day of month 0, and a moment is a day with a time of day in nanoseconds.
 */
module Calendar {

  const HOUR := 3_600_000_000_000
  const DAY := 86_400_000_000_000

  type Clock = c: int | 0 <= c < DAY

  datatype Moment = Moment(day: int, clock: Clock) {
    predicate Before(other: Moment) {
      day < other.day || (day == other.day && clock < other.clock)
    }

    predicate AtMost(other: Moment) {
      !other.Before(this)
    }

    function PlusDays(days: int): Moment {
      Moment(day + days, clock)
    }

    /** A moment some hours later; at most a day, so the clock wraps at most once. */
    function PlusHours(hours: int): Moment
      requires 0 <= hours <= 24
    {
      var c := clock + hours * HOUR;
      if c < DAY then Moment(day, c) else Moment(day + 1, c - DAY)
    }
  }

  /** The moment at which a day starts; daily rows are dated with it. */
  function Midnight(day: int): Moment {
    Moment(day, 0)
  }

  predicate IsLeap(year: int) {
    year % 4 == 0 && (year % 100 != 0 || year % 400 == 0)
  }

  /** Thirty days hath September. */
  function MonthLength(month: int): (n: int)
    ensures 28 <= n <= 31
  {
    if month % 12 == 1 then (if IsLeap(month / 12) then 29 else 28)
    else if month % 12 in {3, 5, 8, 10} then 30
    else 31
  }

  /** The day number of the first day of a month: the lengths of the months before it. */
  function FirstDay(month: int): int
    decreases if month < 0 then -month else month
  {
    if month == 0 then 0
    else if month > 0 then FirstDay(month - 1) + MonthLength(month - 1)
    else FirstDay(month + 1) - MonthLength(month)
  }

  lemma NextMonth(month: int)
    ensures FirstDay(month + 1) == FirstDay(month) + MonthLength(month)
  {
  }

  // ----- the calendar in figures

  /** Gregorian leap years: those divisible by 4, but of the centuries only those divisible by 400. */
  lemma FebruaryLength(year: int)
    ensures MonthLength(12 * year + 1) ==
            if year % 4 == 0 && (year % 100 != 0 || year % 400 == 0) then 29 else 28
  {
    assert (12 * year + 1) / 12 == year && (12 * year + 1) % 12 == 1;
  }

  /** The other months. */
  lemma OtherLengths(year: int, month: int)
    requires 1 <= month <= 12 && month != 2
    ensures MonthLength(12 * year + month - 1) == [31, 0, 31, 30, 31, 30, 31, 31, 30, 31, 30, 31][month - 1]
  {
    assert (12 * year + month - 1) % 12 == month - 1;
  }

  lemma YearLength(year: int)
    ensures FirstDay(12 * (year + 1)) ==
            FirstDay(12 * year) + 365 + (if year % 4 == 0 && (year % 100 != 0 || year % 400 == 0) then 1 else 0)
  {
    hide FirstDay, MonthLength;
    FebruaryLength(year);
    NextMonth(12 * year + 1);
    FromMarch(year, 10);
    OtherLengths(year, 1);
    NextMonth(12 * year);
  }

  lemma {:induction false} FromMarch(year: int, months: nat)
    requires months <= 10
    ensures FirstDay(12 * year + 2 + months) ==
            FirstDay(12 * year + 2) + [0, 31, 61, 92, 122, 153, 184, 214, 245, 275, 306][months]
  {
    hide FirstDay, MonthLength;
    if months > 0 {
      FromMarch(year, months - 1);
      OtherLengths(year, months + 2);
      NextMonth(12 * year + 1 + months);
    }
  }

  /** The day a year starts on: 365 days for every year before it, and one for every leap year among them. */
  lemma {:induction false} YearStart(year: int)
    ensures FirstDay(12 * year) == 365 * year + (year + 3) / 4 - (year + 99) / 100 + (year + 399) / 400
    decreases if year < 0 then -year else year
  {
    hide FirstDay;
    if year > 0 {
      YearStart(year - 1);
      YearLength(year - 1);
      MultiplesPassed(year - 1);
    } else if year < 0 {
      YearStart(year + 1);
      YearLength(year);
      MultiplesPassed(year);
    } else {
      FirstOfAll();
    }
  }

  lemma MultiplesPassed(n: int)
    ensures (n + 4) / 4 == (n + 3) / 4 + (if n % 4 == 0 then 1 else 0)
    ensures (n + 100) / 100 == (n + 99) / 100 + (if n % 100 == 0 then 1 else 0)
    ensures (n + 400) / 400 == (n + 399) / 400 + (if n % 400 == 0 then 1 else 0)
    ensures (n % 400 == 0 ==> n % 100 == 0) && (n % 100 == 0 ==> n % 4 == 0)
  {
    FoursPassed(n);
    CenturiesPassed(n);
    FourCenturiesPassed(n);
  }

  lemma FoursPassed(n: int)
    ensures (n + 4) / 4 == (n + 3) / 4 + (if n % 4 == 0 then 1 else 0)
  {
  }

  lemma CenturiesPassed(n: int)
    ensures (n + 100) / 100 == (n + 99) / 100 + (if n % 100 == 0 then 1 else 0)
    ensures n % 100 == 0 ==> n % 4 == 0
  {
    assert n == 100 * (n / 100) + n % 100;
  }

  lemma FourCenturiesPassed(n: int)
    ensures (n + 400) / 400 == (n + 399) / 400 + (if n % 400 == 0 then 1 else 0)
    ensures n % 400 == 0 ==> n % 100 == 0
  {
    var q, r := n / 400, n % 400;
    assert n == 400 * q + r;
    assert n + 400 == 400 * (q + 1) + r;
    assert r == 0 ==> n == 100 * (4 * q);
  }

  lemma FirstOfAll()
    ensures FirstDay(0) == 0
  {
  }

  /** The calendar repeats every 400 years, which are 146097 days. */
  lemma FourCenturies(year: int)
    ensures FirstDay(12 * (year + 400)) == FirstDay(12 * year) + 146097
  {
    hide FirstDay;
    YearStart(year);
    YearStart(year + 400);
    assert (year + 400 + 3) / 4 == (year + 3) / 4 + 100;
    assert (year + 400 + 99) / 100 == (year + 99) / 100 + 4;
    assert (year + 400 + 399) / 400 == (year + 399) / 400 + 1;
  }

  /** The order of moments and the hours between them, in nanoseconds. */
  lemma InNanoseconds(t: Moment, other: Moment, days: int, hours: int)
    requires 0 <= hours <= 24
    ensures t.Before(other) <==>
            t.day * 86_400_000_000_000 + t.clock < other.day * 86_400_000_000_000 + other.clock
    ensures var later := t.PlusHours(hours);
            later.day * 86_400_000_000_000 + later.clock ==
            t.day * 86_400_000_000_000 + t.clock + hours * 3_600_000_000_000
    ensures t.PlusDays(days) == Moment(t.day + days, t.clock)
  {
  }

  /** Months are disjoint and in order. */
  lemma {:induction false} MonthsInOrder(a: int, b: int)
    requires a < b
    ensures FirstDay(a) + MonthLength(a) <= FirstDay(b)
    ensures FirstDay(a) + 28 * (b - a) <= FirstDay(b) <= FirstDay(a) + 31 * (b - a)
    decreases b - a
  {
    NextMonth(b - 1);
    if a < b - 1 {
      MonthsInOrder(a, b - 1);
    }
  }

  /** The month a day lies in: walk from a guess to the month whose days include it. */
  function MonthFrom(guess: int, day: int): (month: int)
    ensures FirstDay(month) <= day < FirstDay(month) + MonthLength(month)
    decreases if day < FirstDay(guess) then FirstDay(guess) - day
              else if FirstDay(guess + 1) <= day then day - FirstDay(guess) else 0
  {
    NextMonth(guess - 1);
    NextMonth(guess);
    NextMonth(guess + 1);
    if day < FirstDay(guess) then MonthFrom(guess - 1, day)
    else if FirstDay(guess + 1) <= day then MonthFrom(guess + 1, day)
    else guess
  }

  function MonthOf(day: int): (month: int)
    ensures FirstDay(month) <= day < FirstDay(month) + MonthLength(month)
  {
    MonthFrom(day / 31, day)
  }

  /** Day of the month, counted from 1. */
  function DayOfMonth(day: int): (d: int)
    ensures 1 <= d <= MonthLength(MonthOf(day))
    ensures day == FirstDay(MonthOf(day)) + d - 1
  {
    day - FirstDay(MonthOf(day)) + 1
  }

  /** The moment of a calendar date, with `month` in 1..12. */
  function Date(year: int, month: int, dayOfMonth: int, clock: Clock): Moment {
    Moment(FirstDay(12 * year + month - 1) + dayOfMonth - 1, clock)
  }

  /**
   Go's `AddDate`: the fields are added first and the result is normalised after, so a day of the month
   that does not exist spills into the following month instead of being clamped.
   */
  function AddDate(t: Moment, years: int, months: int, days: int): Moment {
    Moment(FirstDay(MonthOf(t.day) + 12 * years + months) + DayOfMonth(t.day) - 1 + days, t.clock)
  }

  /** A day lies in exactly one month. */
  lemma MonthUnique(day: int, month: int)
    requires FirstDay(month) <= day < FirstDay(month) + MonthLength(month)
    ensures MonthOf(day) == month
    ensures DayOfMonth(day) == day - FirstDay(month) + 1
  {
    if MonthOf(day) < month { MonthsInOrder(MonthOf(day), month); }
    if month < MonthOf(day) { MonthsInOrder(month, MonthOf(day)); }
  }

  /** Days are ordered by month first. */
  lemma MonthOrder(a: int, b: int)
    requires a <= b
    ensures MonthOf(a) <= MonthOf(b)
    ensures MonthOf(a) == MonthOf(b) ==> DayOfMonth(a) <= DayOfMonth(b)
  {
    if MonthOf(b) < MonthOf(a) {
      MonthsInOrder(MonthOf(b), MonthOf(a));
    }
  }

  /** Whether `t`'s day of the month exists `months` months on. */
  predicate DayExists(t: Moment, months: int) {
    DayOfMonth(t.day) <= MonthLength(MonthOf(t.day) + months)
  }

  /**
   Where `AddDate` lands when only months are added: on the same day of the target month when that day
   exists, and otherwise on one of the first three days of the month after.
   */
  lemma AddMonths(t: Moment, months: int)
    ensures var landed := AddDate(t, 0, months, 0);
            var target := MonthOf(t.day) + months;
            && landed == t.PlusDays(FirstDay(target) - FirstDay(MonthOf(t.day)))
            && (DayExists(t, months) ==>
                  MonthOf(landed.day) == target && DayOfMonth(landed.day) == DayOfMonth(t.day))
            && (!DayExists(t, months) ==>
                  && MonthOf(landed.day) == target + 1
                  && DayOfMonth(landed.day) == DayOfMonth(t.day) - MonthLength(target)
                  && DayOfMonth(landed.day) <= 3)
  {
    var landed := AddDate(t, 0, months, 0);
    var target := MonthOf(t.day) + months;
    NextMonth(target);
    MonthUnique(landed.day, if DayExists(t, months) then target else target + 1);
  }
}
