/**
 Which windows bill which daily rows over a whole run of roll-overs.

 A run is a sequence of reset marks: the first is given, and roll `i`, made at `rolls[i]`, replaces
 `marks[i]` by `marks[i + 1]`. Each mark in turn ends one billed window.
 */
module Coverage {
  import opened Calendar
  import opened Billing

  // ----- sequences of windows

  /** How many of the windows bill a moment. */
  function Covering(ws: seq<Window>, t: Moment): nat {
    if ws == [] then 0
    else Covering(ws[..|ws| - 1], t) + (if ws[|ws| - 1].Contains(t) then 1 else 0)
  }

  /** The moment lies after the next window has started and before this one ends. */
  predicate InHandover(ws: seq<Window>, t: Moment, i: nat)
    requires i + 1 < |ws|
  {
    ws[i + 1].from.AtMost(t) && t.AtMost(ws[i].to)
  }

  /** How many handovers a moment lies in. */
  function Handovers(ws: seq<Window>, t: Moment): nat {
    if |ws| < 2 then 0
    else Handovers(ws[..|ws| - 1], t) + (if InHandover(ws, t, |ws| - 2) then 1 else 0)
  }

  /** The moment lies after this window has ended and before the next one starts. */
  predicate InGap(ws: seq<Window>, t: Moment, i: nat)
    requires i + 1 < |ws|
  {
    ws[i].to.Before(t) && t.Before(ws[i + 1].from)
  }

  predicate Missed(ws: seq<Window>, t: Moment) {
    exists i: nat | i + 1 < |ws| :: InGap(ws, t, i)
  }

  predicate NoGaps(ws: seq<Window>) {
    forall i: nat | i + 1 < |ws| :: ws[i + 1].from.AtMost(ws[i].to)
  }

  /** Each window starts no earlier and ends no earlier than the one before, and ends after it starts. */
  predicate InOrder(ws: seq<Window>) {
    && (forall i | 0 <= i < |ws| :: ws[i].from.Before(ws[i].to))
    && (forall i, j | 0 <= i <= j < |ws| :: ws[i].from.AtMost(ws[j].from) && ws[i].to.AtMost(ws[j].to))
  }

  /** Windows in order of which each ends before the second next starts. */
  predicate Spaced(ws: seq<Window>) {
    InOrder(ws) && forall i, j | 0 <= i && i + 2 <= j < |ws| :: ws[i].to.Before(ws[j].from)
  }

  lemma {:induction false} NothingBeyond(ws: seq<Window>, t: Moment)
    requires forall i | 0 <= i < |ws| :: ws[i].to.Before(t)
    ensures Covering(ws, t) == 0
  {
    if ws != [] {
      NothingBeyond(ws[..|ws| - 1], t);
    }
  }

  lemma {:induction false} CoveredAtLeastOnce(ws: seq<Window>, t: Moment)
    requires ws != [] && NoGaps(ws)
    requires ws[0].from.AtMost(t) && t.AtMost(ws[|ws| - 1].to)
    ensures Covering(ws, t) >= 1
  {
    var n := |ws| - 1;
    if n > 0 && t.AtMost(ws[n - 1].to) {
      CoveredAtLeastOnce(ws[..n], t);
    }
  }

  predicate InSpan(ws: seq<Window>, t: Moment)
    requires ws != []
  {
    ws[0].from.AtMost(t) && t.AtMost(ws[|ws| - 1].to)
  }

  /** Windows in order bill a moment once, and once more for every handover it lies in, but not in a gap. */
  lemma {:induction false} CoveredExactly(ws: seq<Window>, t: Moment)
    requires ws != [] && InOrder(ws) && InSpan(ws, t)
    ensures Covering(ws, t) == 1 + Handovers(ws, t) - (if Missed(ws, t) then 1 else 0)
  {
    var n := |ws| - 1;
    if n == 0 {
      assert Covering(ws[..0], t) == 0;
    } else {
      GapsSplit(ws, t);
      if t.AtMost(ws[n - 1].to) {
        CoveredExactly(ws[..n], t);
      } else {
        NothingBeyond(ws[..n], t);
        NoHandoverBeyond(ws[..n], t);
      }
    }
  }

  lemma {:induction false} NoHandoverBeyond(ws: seq<Window>, t: Moment)
    requires forall i | 0 <= i < |ws| :: ws[i].to.Before(t)
    ensures Handovers(ws, t) == 0
  {
    if |ws| >= 2 {
      NoHandoverBeyond(ws[..|ws| - 1], t);
    }
  }

  /** The last gap starts where the windows before it end. */
  lemma GapsSplit(ws: seq<Window>, t: Moment)
    requires |ws| >= 2 && InOrder(ws)
    ensures var n := |ws| - 1;
            if t.AtMost(ws[n - 1].to) then Missed(ws, t) <==> Missed(ws[..n], t)
            else !Missed(ws[..n], t) && (Missed(ws, t) <==> t.Before(ws[n].from))
  {
    var n := |ws| - 1;
    forall i: nat | i + 1 < n ensures InGap(ws[..n], t, i) <==> InGap(ws, t, i) {
    }
    if Missed(ws, t) {
      var i: nat :| i + 1 < |ws| && InGap(ws, t, i);
      assert i < n - 1 ==> InGap(ws[..n], t, i);
    }
    if ws[n - 1].to.Before(t) && t.Before(ws[n].from) {
      assert InGap(ws, t, n - 1);
    }
  }

  /** What lies in a gap lies in no window, before it or after. */
  lemma {:induction false} NothingInGap(ws: seq<Window>, t: Moment, i: nat)
    requires InOrder(ws) && i + 1 < |ws| && InGap(ws, t, i)
    ensures Covering(ws, t) == 0
  {
    var n := |ws| - 1;
    if i + 1 == n {
      NothingBeyond(ws[..n], t);
    } else {
      NothingInGap(ws[..n], t, i);
      assert ws[i + 1].from.AtMost(ws[n].from);
    }
  }

  /** Outside the span there is nothing to bill, to hand over or to miss. */
  lemma {:induction false} NothingOutside(ws: seq<Window>, t: Moment)
    requires ws != [] && InOrder(ws) && !InSpan(ws, t)
    ensures Covering(ws, t) == 0 && Handovers(ws, t) == 0 && !Missed(ws, t)
  {
    var n := |ws| - 1;
    assert ws[0].from.AtMost(ws[n].from) && ws[0].to.AtMost(ws[n].to);
    if n == 0 {
      assert Covering(ws[..0], t) == 0;
    } else {
      assert ws[n - 1].from.AtMost(ws[n].from) && ws[n - 1].to.AtMost(ws[n].to);
      NothingOutside(ws[..n], t);
      GapsSplit(ws, t);
    }
  }

  /** When one window ends before the second next starts, a moment lies in at most one handover. */
  lemma {:induction false} HandedOnce(ws: seq<Window>, t: Moment)
    requires Spaced(ws)
    ensures Handovers(ws, t) <= 1
  {
    if |ws| >= 2 {
      var n := |ws| - 1;
      HandedOnce(ws[..n], t);
      if InHandover(ws, t, n - 1) && n >= 2 {
        assert ws[n - 2].to.Before(ws[n].from);
        var front := ws[..n - 1];
        forall i | 0 <= i < |front| ensures front[i].to.Before(t) {
          assert ws[i].to.AtMost(ws[n - 2].to);
        }
        NoHandoverBeyond(front, t);
        assert ws[..n][..n - 1] == ws[..n - 1];
      }
    }
  }

  // ----- runs of roll-overs

  predicate IsRun(period: int, marks: seq<Moment>, rolls: seq<Moment>) {
    && |marks| == |rolls| + 1
    && forall i :: 0 <= i < |rolls| ==> marks[i + 1] == NextResetTime(rolls[i], period)
  }

  /** The roll is made because the mark has passed, rather than because the quota is used up. */
  predicate Due(mark: Moment, now: Moment) {
    mark.Before(now)
  }

  predicate WithinADay(mark: Moment, now: Moment) {
    now.AtMost(mark.PlusDays(1))
  }

  /** No roll comes more than a day late. */
  predicate Timely(marks: seq<Moment>, rolls: seq<Moment>)
    requires |marks| == |rolls| + 1
  {
    forall i :: 0 <= i < |rolls| ==> WithinADay(marks[i], rolls[i])
  }

  /** Every roll is made on a day of the month that exists in the target month. */
  predicate NoSpills(period: int, rolls: seq<Moment>)
    requires Known(period)
  {
    forall i :: 0 <= i < |rolls| ==> DayExists(rolls[i], Months(period))
  }

  predicate AllDue(marks: seq<Moment>, rolls: seq<Moment>)
    requires |marks| == |rolls| + 1
  {
    forall i :: 0 <= i < |rolls| ==> Due(marks[i], rolls[i])
  }

  /** The windows the marks end, one by one. */
  function Windows(period: int, marks: seq<Moment>): (ws: seq<Window>)
    ensures |ws| == |marks|
    ensures forall i | 0 <= i < |marks| :: ws[i] == BillingPeriod(marks[i], period)
    ensures forall i | 0 <= i < |marks| :: ws[i].to == marks[i]
  {
    seq(|marks|, i requires 0 <= i < |marks| => BillingPeriod(marks[i], period))
  }

  /** How many days after a spilling roll the next window starts. */
  function Late(now: Moment, period: int): int
    requires Known(period)
  {
    MonthLength(MonthOf(now.day)) - MonthLength(MonthOf(now.day) + Months(period)) - 1
  }

  /** Where the window of the mark a roll writes starts, in days from the roll. */
  function Shift(now: Moment, period: int): int
    requires Known(period)
  {
    if DayExists(now, Months(period)) then -1 else Late(now, period)
  }

  /**
   One roll. A due roll leaves no gap between the old window and the new one exactly when it comes within a day
   and the day of the month exists in the target month; the two then share less than a day.
   */
  lemma OneRoll(period: int, mark: Moment, now: Moment)
    requires Known(period)
    ensures var next := BillingPeriod(NextResetTime(now, period), period);
            && next.from == now.PlusDays(Shift(now, period)) && -1 <= Shift(now, period) <= 2
            && (DayExists(now, Months(period)) && WithinADay(mark, now) ==> next.from.AtMost(mark))
            && (Due(mark, now) ==>
                  && (next.from.AtMost(mark) <==> DayExists(now, Months(period)) && WithinADay(mark, now))
                  && mark.PlusDays(-1).Before(next.from)
                  && mark.PlusDays(28).Before(NextResetTime(now, period)))
  {
    hide NextResetTime, BillingPeriod, DayExists;
    StepIsMonths(now, period);
    WindowStart(now, period);
    Advance(now, period);
  }

  /** A due roll bills at most one midnight, and so at most one daily row of a user, twice. */
  lemma OneMidnightPerHandover(period: int, mark: Moment, now: Moment, first: int, second: int)
    requires Known(period) && Due(mark, now)
    requires var ws := Windows(period, [mark, NextResetTime(now, period)]);
             InHandover(ws, Midnight(first), 0) && InHandover(ws, Midnight(second), 0)
    ensures first == second
  {
    OneRoll(period, mark, now);
  }

  /** A window is at least 29 days long. */
  lemma WindowLength(period: int, reset: Moment)
    requires Known(period)
    ensures BillingPeriod(reset, period).from.PlusDays(29).AtMost(reset)
  {
    hide FirstDay, MonthLength, MonthOf;
    StepIsMonths(reset, period);
    Span(MonthOf(reset.day) - Months(period), period);
  }

  lemma NoGapsWhenPrompt(period: int, marks: seq<Moment>, rolls: seq<Moment>)
    requires Known(period) && IsRun(period, marks, rolls) && Timely(marks, rolls) && NoSpills(period, rolls)
    ensures NoGaps(Windows(period, marks))
  {
    hide NextResetTime, BillingPeriod, DayExists, Shift;
    var ws := Windows(period, marks);
    forall i: nat | i + 1 < |ws| ensures ws[i + 1].from.AtMost(ws[i].to) {
      OneRoll(period, marks[i], rolls[i]);
    }
  }

  /** A run of due rolls leaves no gaps exactly when none of them comes more than a day late and none spills. */
  lemma NoGapsExactly(period: int, marks: seq<Moment>, rolls: seq<Moment>)
    requires Known(period) && IsRun(period, marks, rolls) && AllDue(marks, rolls)
    ensures NoGaps(Windows(period, marks)) <==> Timely(marks, rolls) && NoSpills(period, rolls)
  {
    hide NextResetTime, BillingPeriod, DayExists, Shift;
    var ws := Windows(period, marks);
    forall i: nat | i + 1 < |ws|
      ensures ws[i + 1].from.AtMost(ws[i].to) <==>
              WithinADay(marks[i], rolls[i]) && DayExists(rolls[i], Months(period))
    {
      OneRoll(period, marks[i], rolls[i]);
    }
    if NoGaps(ws) {
      forall i | 0 <= i < |rolls| ensures WithinADay(marks[i], rolls[i]) && DayExists(rolls[i], Months(period)) {
        assert ws[i + 1].from.AtMost(ws[i].to);
      }
    }
  }

  lemma DueWindowsSpaced(period: int, marks: seq<Moment>, rolls: seq<Moment>)
    requires Known(period) && IsRun(period, marks, rolls) && AllDue(marks, rolls)
    ensures Spaced(Windows(period, marks))
  {
    hide NextResetTime, BillingPeriod, DayExists, Shift;
    var ws := Windows(period, marks);
    forall i | 0 <= i < |ws| ensures ws[i].from.PlusDays(29).AtMost(ws[i].to) {
      WindowLength(period, marks[i]);
    }
    forall i, j | 0 <= i < j < |ws| ensures ws[i].to.PlusDays(28).Before(ws[j].to) {
      MarksIncrease(period, marks, rolls, i, j);
    }
    forall i: nat | i + 1 < |ws| ensures ws[i].to.PlusDays(-1).Before(ws[i + 1].from) {
      OneRoll(period, marks[i], rolls[i]);
    }
    FarApart(ws);
  }

  lemma FarApart(ws: seq<Window>)
    requires forall i | 0 <= i < |ws| :: ws[i].from.PlusDays(29).AtMost(ws[i].to)
    requires forall i, j | 0 <= i < j < |ws| :: ws[i].to.PlusDays(28).Before(ws[j].to)
    requires forall i: nat | i + 1 < |ws| :: ws[i].to.PlusDays(-1).Before(ws[i + 1].from)
    ensures Spaced(ws)
  {
    forall i, j | 0 <= i < j < |ws|
      ensures ws[i].from.AtMost(ws[j].from) && (i + 2 <= j ==> ws[i].to.Before(ws[j].from))
    {
      var k := j - 1;
      assert ws[k].to.PlusDays(-1).Before(ws[k + 1].from);
      assert i == k || ws[i].to.PlusDays(28).Before(ws[k].to);
    }
    forall i, j | 0 <= i <= j < |ws| ensures ws[i].to.AtMost(ws[j].to) {
      assert i == j || ws[i].to.PlusDays(28).Before(ws[j].to);
    }
  }

  lemma {:induction false} MarksIncrease(period: int, marks: seq<Moment>, rolls: seq<Moment>, i: nat, j: nat)
    requires Known(period) && IsRun(period, marks, rolls) && AllDue(marks, rolls)
    requires i < j < |marks|
    ensures marks[i].PlusDays(28).Before(marks[j])
    decreases j
  {
    hide NextResetTime, BillingPeriod, DayExists;
    OneRoll(period, marks[j - 1], rolls[j - 1]);
    if i < j - 1 {
      MarksIncrease(period, marks, rolls, i, j - 1);
    }
  }

  /**
   The gap after a roll, whatever the roll: from the old mark to a day before the roll or, when the roll spills, to
   as many days after it as its month is longer than the target month, less one.
   */
  lemma GapsExactly(period: int, marks: seq<Moment>, rolls: seq<Moment>, t: Moment, i: nat)
    requires Known(period) && IsRun(period, marks, rolls) && i < |rolls|
    ensures InGap(Windows(period, marks), t, i) <==>
            marks[i].Before(t) && t.Before(rolls[i].PlusDays(Shift(rolls[i], period)))
  {
    hide NextResetTime, BillingPeriod, Shift;
    OneRoll(period, marks[i], rolls[i]);
  }

  /** 30 January, just after midnight. */
  function MarkOf(year: int): Moment {
    Date(year, 1, 30, 1)
  }

  /**
   Rows do go unbilled when a roll spills: a monthly mark of 30 January, rolled on the 31st of a common year,
   leaves that day and the first two days of February to no window.
   */
  lemma SpillLosesRows(year: int, day: int)
    requires !IsLeap(year) && MarkOf(year).day < day <= MarkOf(year).day + 3
    ensures var mark, roll := MarkOf(year), MarkOf(year).PlusDays(1);
            var marks := [mark, NextResetTime(roll, MONTH)];
            && IsRun(MONTH, marks, [roll]) && Timely(marks, [roll]) && AllDue(marks, [roll])
            && Covering(Windows(MONTH, marks), Midnight(day)) == 0
  {
    hide NextResetTime, BillingPeriod, FirstDay, MonthLength, MonthOf, IsLeap;
    var roll := MarkOf(year).PlusDays(1);
    var marks := [MarkOf(year), NextResetTime(roll, MONTH)];
    JanuaryEnds(year);
    GapsExactly(MONTH, marks, [roll], Midnight(day), 0);
    CoveringTwo(Windows(MONTH, marks), Midnight(day));
  }

  /** And when a roll comes late, on whatever day: rolled three days after the mark, two days are left to no window. */
  lemma LateRollLosesRows(period: int, mark: Moment, day: int)
    requires Known(period) && mark.clock == 1 && DayExists(mark.PlusDays(3), Months(period))
    requires mark.day < day <= mark.day + 2
    ensures var roll := mark.PlusDays(3);
            var marks := [mark, NextResetTime(roll, period)];
            && IsRun(period, marks, [roll]) && AllDue(marks, [roll]) && NoSpills(period, [roll])
            && Covering(Windows(period, marks), Midnight(day)) == 0
  {
    hide NextResetTime, BillingPeriod, DayExists;
    var roll := mark.PlusDays(3);
    var marks := [mark, NextResetTime(roll, period)];
    GapsExactly(period, marks, [roll], Midnight(day), 0);
    CoveringTwo(Windows(period, marks), Midnight(day));
  }

  lemma JanuaryEnds(year: int)
    requires !IsLeap(year)
    ensures var day := FirstDay(12 * year) + 30;
            && MonthOf(day) == 12 * year && DayOfMonth(day) == 31
            && MonthLength(12 * year) == 31 && MonthLength(12 * year + 1) == 28
  {
    hide FirstDay, MonthLength, MonthOf, IsLeap;
    LengthInYear(year, 0);
    LengthInYear(year, 1);
    MonthUnique(FirstDay(12 * year) + 30, 12 * year);
  }

  lemma CoveringTwo(ws: seq<Window>, t: Moment)
    requires |ws| == 2
    ensures Covering(ws, t) == (if ws[0].Contains(t) then 1 else 0) + (if ws[1].Contains(t) then 1 else 0)
  {
    assert ws[..1] == [ws[0]] && [ws[0]][..0] == [];
    assert Covering(ws[..1], t) == Covering([], t) + (if ws[0].Contains(t) then 1 else 0);
  }

  function JustAfter(t: Moment): Moment {
    if t.clock + 1 < DAY then Moment(t.day, t.clock + 1) else Moment(t.day + 1, 0)
  }

  /** From any mark, for any known period, there are runs of due, timely rolls of every length. */
  lemma {:induction false} PunctualRun(period: int, mark: Moment, n: nat)
    returns (marks: seq<Moment>, rolls: seq<Moment>)
    requires Known(period)
    ensures IsRun(period, marks, rolls) && Timely(marks, rolls) && AllDue(marks, rolls)
    ensures |rolls| == n && marks[0] == mark
  {
    hide NextResetTime;
    if n == 0 {
      marks, rolls := [mark], [];
    } else {
      marks, rolls := PunctualRun(period, mark, n - 1);
      var now := JustAfter(marks[n - 1]);
      marks, rolls := marks + [NextResetTime(now, period)], rolls + [now];
    }
  }

  /**
   Quota rolls included: as long as no roll is more than a day late or spills, every moment from the first
   window's start to the last mark is billed at least once.
   */
  lemma BilledAtLeastOnce(period: int, marks: seq<Moment>, rolls: seq<Moment>, t: Moment)
    requires Known(period) && IsRun(period, marks, rolls) && Timely(marks, rolls) && NoSpills(period, rolls)
    requires BillingPeriod(marks[0], period).from.AtMost(t) && t.AtMost(marks[|rolls|])
    ensures Covering(Windows(period, marks), t) >= 1
  {
    hide NextResetTime, BillingPeriod, DayExists;
    NoGapsWhenPrompt(period, marks, rolls);
    CoveredAtLeastOnce(Windows(period, marks), t);
  }

  /**
   The rolls are made one after another, the first once its window is a day old; and a roll that spills is not
   followed by another within three days.
   */
  predicate Calm(period: int, marks: seq<Moment>, rolls: seq<Moment>)
    requires Known(period) && |marks| == |rolls| + 1
  {
    && (rolls != [] ==> BillingPeriod(marks[0], period).from.PlusDays(1).AtMost(rolls[0]))
    && (forall i :: 0 <= i < |rolls| - 1 ==> rolls[i].AtMost(rolls[i + 1]))
    && (forall i :: 0 <= i < |rolls| - 1 ==>
          DayExists(rolls[i], Months(period)) || rolls[i].PlusDays(3).AtMost(rolls[i + 1]))
  }

  /** Due rolls are calm: the next is a month away. */
  lemma DueIsCalm(period: int, marks: seq<Moment>, rolls: seq<Moment>)
    requires Known(period) && IsRun(period, marks, rolls) && AllDue(marks, rolls)
    ensures Calm(period, marks, rolls)
  {
    hide NextResetTime, BillingPeriod, DayExists;
    WindowLength(period, marks[0]);
    forall i | 0 <= i < |rolls| - 1 ensures rolls[i].PlusDays(28).AtMost(rolls[i + 1]) {
      Advance(rolls[i], period);
      assert Due(marks[i + 1], rolls[i + 1]);
    }
  }

  /** The windows of two rolls one after the other. */
  lemma WindowsOfTwoRolls(period: int, first: Moment, second: Moment)
    requires Known(period) && first.AtMost(second)
    requires DayExists(first, Months(period)) || first.PlusDays(3).AtMost(second)
    ensures var a := BillingPeriod(NextResetTime(first, period), period);
            var b := BillingPeriod(NextResetTime(second, period), period);
            a.from.AtMost(b.from) && NextResetTime(first, period).AtMost(NextResetTime(second, period))
  {
    hide NextResetTime, BillingPeriod, DayExists;
    OneRoll(period, first, first);
    OneRoll(period, second, second);
    MarksInOrder(first, second, period);
  }

  lemma MarksInOrder(first: Moment, second: Moment, period: int)
    requires Known(period) && first.AtMost(second)
    requires DayExists(first, Months(period)) || first.PlusDays(3).AtMost(second)
    ensures NextResetTime(first, period).AtMost(NextResetTime(second, period))
  {
    hide NextResetTime, FirstDay, MonthLength, MonthOf;
    MarksOutOfOrder(first, second, period);
    AddMonths(first, Months(period));
    NextMonth(MonthOf(first.day));
  }

  lemma CalmWindowsInOrder(period: int, marks: seq<Moment>, rolls: seq<Moment>)
    requires Known(period) && IsRun(period, marks, rolls) && Calm(period, marks, rolls)
    ensures InOrder(Windows(period, marks))
  {
    hide NextResetTime, BillingPeriod, DayExists;
    var ws := Windows(period, marks);
    forall i | 0 <= i < |ws| ensures ws[i].from.Before(ws[i].to) {
      WindowLength(period, marks[i]);
    }
    forall i, j | 0 <= i <= j < |ws| ensures ws[i].from.AtMost(ws[j].from) && ws[i].to.AtMost(ws[j].to) {
      CalmPair(period, marks, rolls, i, j);
    }
  }

  lemma {:induction false} CalmPair(period: int, marks: seq<Moment>, rolls: seq<Moment>, i: nat, j: nat)
    requires Known(period) && IsRun(period, marks, rolls) && Calm(period, marks, rolls) && i <= j < |marks|
    ensures var ws := Windows(period, marks); ws[i].from.AtMost(ws[j].from) && ws[i].to.AtMost(ws[j].to)
    decreases j
  {
    hide NextResetTime, BillingPeriod, DayExists;
    if i < j {
      CalmPair(period, marks, rolls, i, j - 1);
      if j == 1 {
        FirstRoll(period, marks[0], rolls[0]);
      } else {
        WindowsOfTwoRolls(period, rolls[j - 2], rolls[j - 1]);
      }
    }
  }

  lemma FirstRoll(period: int, mark: Moment, now: Moment)
    requires Known(period) && BillingPeriod(mark, period).from.PlusDays(1).AtMost(now)
    ensures BillingPeriod(mark, period).from.AtMost(BillingPeriod(NextResetTime(now, period), period).from)
    ensures mark.AtMost(NextResetTime(now, period))
  {
    hide FirstDay, MonthLength, MonthOf;
    var months := Months(period);
    var base := AddDate(mark, 0, -months, 0);
    StepIsMonths(mark, period);
    AddMonths(mark, -months);
    NextMonth(MonthOf(mark.day));
    MarkDay(base, period);
    MarksNearlyMonotone(base, now, period);
    OneRoll(period, now, now);
  }

  /**
   Whether rolls are due or made for quota, late or spilling: every moment from the first window's start to the last
   mark is billed once, and once more for every handover it lies in, but in a gap not at all.
   */
  lemma BilledExactly(period: int, marks: seq<Moment>, rolls: seq<Moment>, t: Moment)
    requires Known(period) && IsRun(period, marks, rolls) && Calm(period, marks, rolls)
    requires BillingPeriod(marks[0], period).from.AtMost(t) && t.AtMost(marks[|rolls|])
    ensures var ws := Windows(period, marks);
            && Covering(ws, t) == 1 + Handovers(ws, t) - (if Missed(ws, t) then 1 else 0)
            && (Covering(ws, t) == 0 <==> Missed(ws, t))
  {
    hide NextResetTime, BillingPeriod, DayExists;
    var ws := Windows(period, marks);
    CalmWindowsInOrder(period, marks, rolls);
    CoveredExactly(ws, t);
    if Missed(ws, t) {
      var i: nat :| i + 1 < |ws| && InGap(ws, t, i);
      NothingInGap(ws, t, i);
    }
  }

  /**
   Rolls that are not calm do bill otherwise: rolled on 31 January of a common year and again a day later, a monthly
   plan is left with a mark two days before the one it had, and the row of that earlier mark's day, which lies past
   the last mark, is billed all the same.
   */
  lemma HastyRollBillsPastTheMark(year: int, mark: Moment)
    requires !IsLeap(year)
    ensures var first, second := Date(year, 1, 31, 0), Date(year, 2, 1, 0);
            var marks := [mark, NextResetTime(first, MONTH), NextResetTime(second, MONTH)];
            && IsRun(MONTH, marks, [first, second]) && first.Before(second)
            && marks[2] == marks[1].PlusDays(-2)
            && Covering(Windows(MONTH, marks), Midnight(marks[1].day)) >= 1
  {
    hide NextResetTime, BillingPeriod, FirstDay, IsLeap;
    var first, second := Date(year, 1, 31, 0), Date(year, 2, 1, 0);
    var marks := [mark, NextResetTime(first, MONTH), NextResetTime(second, MONTH)];
    var ws := Windows(MONTH, marks);
    MarksDoGoBack(year, 0);
    Advance(first, MONTH);
    WindowLength(MONTH, marks[1]);
    CoveringTwo(ws[..2], Midnight(marks[1].day));
  }

  /** With due rolls only, no moment is billed more than twice; and none not at all when no roll is late or spills. */
  lemma BilledOnceOrTwice(period: int, marks: seq<Moment>, rolls: seq<Moment>, t: Moment)
    requires Known(period) && IsRun(period, marks, rolls) && AllDue(marks, rolls)
    requires BillingPeriod(marks[0], period).from.AtMost(t) && t.AtMost(marks[|rolls|])
    ensures Covering(Windows(period, marks), t) <= 2
    ensures Timely(marks, rolls) && NoSpills(period, rolls) ==> 1 <= Covering(Windows(period, marks), t)
  {
    hide NextResetTime, BillingPeriod, DayExists;
    DueIsCalm(period, marks, rolls);
    BilledExactly(period, marks, rolls, t);
    DueWindowsSpaced(period, marks, rolls);
    HandedOnce(Windows(period, marks), t);
    if Timely(marks, rolls) && NoSpills(period, rolls) {
      BilledAtLeastOnce(period, marks, rolls, t);
    }
  }

  // ----- daily rows

  datatype DailyRow = DailyRow(user: int, day: int, total: int)

  /** What `PeriodTrafficUsage` adds up: the user's rows dated inside the window. */
  function Usage(rows: seq<DailyRow>, user: int, window: Window): int {
    if rows == [] then 0
    else
      var row := rows[|rows| - 1];
      Usage(rows[..|rows| - 1], user, window)
      + (if row.user == user && window.Contains(Midnight(row.day)) then row.total else 0)
  }

  /** Everything a run of windows bills a user. */
  function Billed(ws: seq<Window>, rows: seq<DailyRow>, user: int): int {
    if ws == [] then 0
    else Billed(ws[..|ws| - 1], rows, user) + Usage(rows, user, ws[|ws| - 1])
  }

  /** The sum of a user's rows, each as many times as its day says. */
  function Total(rows: seq<DailyRow>, user: int, times: int -> int): int {
    if rows == [] then 0
    else
      var row := rows[|rows| - 1];
      Total(rows[..|rows| - 1], user, times) + (if row.user == user then times(row.day) * row.total else 0)
  }

  /** Once for every day in the span of the windows. */
  function Once(ws: seq<Window>): int -> int
    requires ws != []
  {
    day => if InSpan(ws, Midnight(day)) then 1 else 0
  }

  /** As many times as the day's midnight lies in a handover. */
  function Again(ws: seq<Window>): int -> int {
    day => Handovers(ws, Midnight(day))
  }

  /** Once for every day whose midnight lies in a gap. */
  function Never(ws: seq<Window>): int -> int {
    day => if Missed(ws, Midnight(day)) then 1 else 0
  }

  lemma {:induction false} NothingBilled(ws: seq<Window>, user: int)
    ensures Billed(ws, [], user) == 0
  {
    if ws != [] {
      NothingBilled(ws[..|ws| - 1], user);
    }
  }

  /** One more row adds its total once for every window that covers it. */
  lemma {:induction false} OneRowBilled(ws: seq<Window>, rows: seq<DailyRow>, user: int)
    requires rows != []
    ensures var row := rows[|rows| - 1];
            Billed(ws, rows, user) == Billed(ws, rows[..|rows| - 1], user)
            + (if row.user == user then Covering(ws, Midnight(row.day)) * row.total else 0)
    decreases |ws|
  {
    if ws != [] {
      OneRowBilled(ws[..|ws| - 1], rows, user);
    }
  }

  /**
   Over any calm run the windows bill every row in their span once, once more for every handover its midnight lies
   in, and not when it lies in a gap; rows outside the span are not billed.
   */
  lemma {:induction false} RunBillsEveryRow(
      period: int, marks: seq<Moment>, rolls: seq<Moment>, rows: seq<DailyRow>, user: int)
    requires Known(period) && IsRun(period, marks, rolls) && Calm(period, marks, rolls)
    ensures var ws := Windows(period, marks);
            Billed(ws, rows, user) ==
            Total(rows, user, Once(ws)) + Total(rows, user, Again(ws)) - Total(rows, user, Never(ws))
    decreases |rows|
  {
    hide NextResetTime, BillingPeriod, Handovers, Missed, InOrder;
    var ws := Windows(period, marks);
    if rows == [] {
      NothingBilled(ws, user);
    } else {
      var row := rows[|rows| - 1];
      RunBillsEveryRow(period, marks, rolls, rows[..|rows| - 1], user);
      OneRowBilled(ws, rows, user);
      CalmWindowsInOrder(period, marks, rolls);
      if InSpan(ws, Midnight(row.day)) {
        CoveredExactly(ws, Midnight(row.day));
      } else {
        NothingOutside(ws, Midnight(row.day));
      }
      Distributes(Once(ws)(row.day), Again(ws)(row.day), Never(ws)(row.day), row.total);
    }
  }

  lemma Distributes(once: int, again: int, never: int, total: int)
    ensures (once + again - never) * total == once * total + again * total - never * total
  {
  }
}
