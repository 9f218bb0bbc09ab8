/**
 The billing tables and everything that moves a user's reset mark and expiry: associating a plan, creating
 one with a user, editing the expiry, and the worker's pass that rolls marks forward.
 */
module TrafficWorker {
  import opened Calendar
  import opened Wrappers
  import opened Billing
  import opened Coverage
  import opened Text

  datatype Plan = Plan(name: string, quota: int, period: Option<int>)

  /** What gorm preloads for a user whose plan row does not exist. */
  const NO_PLAN := Plan("", 0, None)

  datatype User = User(plan: int, expiry: Option<Moment>, reset: Option<Moment>)

  datatype Books = Books(users: map<int, User>, plans: map<int, Plan>, daily: seq<DailyRow>) {
    function PlanOf(id: int): Plan
      requires id in users
    {
      if users[id].plan in plans then plans[users[id].plan] else NO_PLAN
    }

    function Used(id: int): int
      requires id in users
    {
      UsedBy(daily, id, users[id], PlanOf(id))
    }
  }

  /** What a user has consumed in the period that ends at their reset mark. */
  function UsedBy(daily: seq<DailyRow>, id: int, user: User, plan: Plan): int {
    if user.reset.None? || plan.period.None? then 0
    else Usage(daily, id, BillingPeriod(user.reset.value, plan.period.value))
  }

  /** What the worker meets while handling one user: failures and its two readings of the clock. */
  datatype Visit = Visit(usageFails: bool, checkedAt: Moment, rolledAt: Moment, writeFails: bool)

  /** The slack between a subscription running out and the reset it was paid up to. */
  const SLACK_HOURS := 5

  predicate PaidUpTo(expiry: Moment, mark: Moment) {
    mark.Before(expiry.PlusHours(SLACK_HOURS))
  }

  /** Whether handling a user, as the pass has read the user, writes a new mark. */
  predicate Writes(user: User, plan: Plan, used: int, v: Visit) {
    && user.reset.Some? && plan.period.Some? && !v.usageFails
    && (user.reset.value.Before(v.checkedAt) || used > plan.quota)
    && user.expiry.Some? && PaidUpTo(user.expiry.value, NextResetTime(v.rolledAt, plan.period.value))
    && !v.writeFails
  }

  predicate Rolls(b: Books, id: int, v: Visit)
    requires id in b.users
  {
    Writes(b.users[id], b.PlanOf(id), b.Used(id), v)
  }

  function Visited(b: Books, id: int, v: Visit): User
    requires id in b.users
  {
    if Rolls(b, id, v) then b.users[id].(reset := Some(NextResetTime(v.rolledAt, b.PlanOf(id).period.value)))
    else b.users[id]
  }

  /** How many users a pass handles: `visits` has no entry for the user before whom it was cancelled. */
  function Handled(order: seq<int>, visits: map<int, Visit>): (n: nat)
    ensures n <= |order|
    ensures forall i | 0 <= i < n :: order[i] in visits
    ensures n < |order| ==> order[n] !in visits
  {
    if order == [] || order[0] !in visits then 0 else 1 + Handled(order[1..], visits)
  }

  // ----- the steps

  datatype Event =
    | Associate(user: int, plan: int, now: Moment)
    | Create(id: int, draft: Plan, owner: Option<int>, now: Moment, fails: bool)
    | EditExpiry(user: int, expiry: Option<Moment>)
    | Reconcile(order: seq<int>, visits: map<int, Visit>)
    | LateVisit(id: int, seen: User, under: Plan, v: Visit)
    | Record(rows: seq<DailyRow>)

  const PLAN_NAME_LIMIT := 255

  /** A draft as it is stored. */
  function Tidied(draft: Plan): Plan {
    draft.(name := TrimBy(draft.name, IsGoSpace))
  }

  predicate ValidDraft(draft: Plan) {
    draft.name != "" && |draft.name| <= PLAN_NAME_LIMIT && draft.quota > 0
    && draft.period.Some? && Known(draft.period.value)
  }

  predicate NameTaken(plans: map<int, Plan>, name: string) {
    exists id | id in plans :: plans[id].name == name
  }

  /** Associating is an overwrite: both marks run from now. */
  function WithPlan(planId: int, plan: Plan, now: Moment): User {
    User(planId, Some(PlanPeriodEnd(now, plan.period)), Some(PlanPeriodEnd(now, plan.period)))
  }

  function Step(b: Books, e: Event): Books {
    match e
    case Associate(user, plan, now) =>
      if plan !in b.plans || user !in b.users then b
      else b.(users := b.users[user := WithPlan(plan, b.plans[plan], now)])
    case Create(id, untidy, owner, now, fails) =>
      var draft := Tidied(untidy);
      if !ValidDraft(draft) || NameTaken(b.plans, draft.name) || fails then b
      else if owner.None? then b.(plans := b.plans[id := draft])
      else if owner.value !in b.users then b
      else b.(plans := b.plans[id := draft], users := b.users[owner.value := WithPlan(id, draft, now)])
    case EditExpiry(user, expiry) =>
      if user !in b.users || expiry.None? then b
      else b.(users := b.users[user := b.users[user].(expiry := expiry)])
    case Reconcile(order, visits) =>
      var handled := order[..Handled(order, visits)];
      b.(users := map id | id in b.users :: if id in handled then Visited(b, id, visits[id]) else b.users[id])
    case LateVisit(id, seen, plan, v) =>
      if id in b.users && Writes(seen, plan, UsedBy(b.daily, id, seen, plan), v)
      then b.(users := b.users[id := b.users[id].(reset := Some(NextResetTime(v.rolledAt, plan.period.value)))])
      else b
    case Record(rows) => b.(daily := rows)
  }

  function Run(b: Books, es: seq<Event>): Books {
    if es == [] then b else Step(Run(b, es[..|es| - 1]), es[|es| - 1])
  }

  // ----- what a pass writes, told from the tables

  /** The first `n` users of a pass have an entry in `visits`, so it is cancelled no earlier than after them. */
  lemma {:induction false} ReachedAreHandled(order: seq<int>, visits: map<int, Visit>, n: nat)
    requires n <= |order| && forall j | 0 <= j < n :: order[j] in visits
    ensures n <= Handled(order, visits)
  {
    if n > 0 {
      assert order[0] in visits;
      forall j | 0 <= j < n - 1 ensures order[1..][j] in visits {
        assert order[j + 1] in visits;
      }
      ReachedAreHandled(order[1..], visits, n - 1);
    }
  }

  /** The pass gets as far as this user and meets no failure there. */
  predicate Reaches(order: seq<int>, visits: map<int, Visit>, k: nat) {
    && k < |order|
    && (forall j | 0 <= j <= k :: order[j] in visits)
    && !visits[order[k]].usageFails && !visits[order[k]].writeFails
  }

  /**
   A user the pass reaches is rolled exactly when the mark has passed or the rows dated from one period and a day
   before the mark up to the mark total more than the quota, and the subscription runs until less than five hours
   before the next mark, one period from the roll, or longer.
   */
  lemma PassWrites(b: Books, order: seq<int>, visits: map<int, Visit>, k: nat)
    requires Reaches(order, visits, k) && order[k] in b.users && b.users[order[k]].plan in b.plans
    requires b.users[order[k]].reset.Some?
    requires var plan := b.plans[b.users[order[k]].plan]; plan.period.Some? && Known(plan.period.value)
    ensures var id, v := order[k], visits[order[k]];
            var user, plan := b.users[id], b.plans[b.users[id].plan];
            var mark, months := user.reset.value, Months(plan.period.value);
            var used := Usage(b.daily, id, Window(AddDate(mark, 0, -months, -1), mark));
            var next := AddDate(v.rolledAt, 0, months, 0);
            var paidUp := user.expiry.Some? && next.Before(user.expiry.value.PlusHours(5));
            Step(b, Reconcile(order, visits)).users[id] ==
            if (mark.Before(v.checkedAt) || used > plan.quota) && paidUp then user.(reset := Some(next)) else user
  {
    hide Usage, AddDate;
    ReachedAreHandled(order, visits, k + 1);
    assert order[..Handled(order, visits)][k] == order[k];
    var period := b.plans[b.users[order[k]].plan].period.value;
    StepIsMonths(visits[order[k]].rolledAt, period);
    StepIsMonths(b.users[order[k]].reset.value, period);
  }

  /** Before the mark has passed, the quota alone decides: rows that total at most the quota leave the mark. */
  lemma QuotaRolls(b: Books, order: seq<int>, visits: map<int, Visit>, k: nat)
    requires Reaches(order, visits, k) && order[k] in b.users && b.users[order[k]].plan in b.plans
    requires b.users[order[k]].reset.Some? && visits[order[k]].checkedAt.AtMost(b.users[order[k]].reset.value)
    requires var plan := b.plans[b.users[order[k]].plan]; plan.period.Some? && Known(plan.period.value)
    ensures var id, v := order[k], visits[order[k]];
            var user, plan := b.users[id], b.plans[b.users[id].plan];
            var mark, months := user.reset.value, Months(plan.period.value);
            var used := Usage(b.daily, id, Window(AddDate(mark, 0, -months, -1), mark));
            var next, after := AddDate(v.rolledAt, 0, months, 0), Step(b, Reconcile(order, visits)).users[id];
            && (used <= plan.quota ==> after == user)
            && (used > plan.quota && user.expiry.Some? && next.Before(user.expiry.value.PlusHours(5)) ==>
                  after == user.(reset := Some(next)))
  {
    hide Usage, AddDate, Step, Months;
    PassWrites(b, order, visits, k);
  }

  /** Without a mark or a period nothing counts as used; otherwise what the window's rows total does. */
  lemma UsedInWindow(b: Books, id: int)
    requires id in b.users
    ensures var user := b.users[id];
            var noPeriod := user.plan !in b.plans || b.plans[user.plan].period.None?;
            && (user.reset.None? || noPeriod ==> b.Used(id) == 0)
            && (user.reset.Some? && !noPeriod ==>
                  b.Used(id) == Usage(b.daily, id, BillingPeriod(user.reset.value, b.plans[user.plan].period.value)))
  {
  }

  /** A user the pass does not reach, or fails at, or who has no mark or no period, is left alone. */
  lemma PassLeaves(b: Books, order: seq<int>, visits: map<int, Visit>, id: int)
    requires id in b.users
    requires || id !in order || id !in visits || visits[id].usageFails || visits[id].writeFails
             || b.users[id].reset.None? || b.users[id].plan !in b.plans || b.plans[b.users[id].plan].period.None?
    ensures var after := Step(b, Reconcile(order, visits));
            after.users[id] == b.users[id] && after.users.Keys == b.users.Keys
            && after.plans == b.plans && after.daily == b.daily
  {
    hide Usage, NextResetTime;
    var handled := order[..Handled(order, visits)];
    if id in handled {
      var i :| 0 <= i < |handled| && handled[i] == id;
      assert order[i] == id && id in visits;
    }
  }

  /** What keeps a plan from being created, its name having lost the white space around it. */
  predicate Refused(b: Books, draft: Plan, owner: Option<int>) {
    || |draft.name| == 0 || |draft.name| > 255 || draft.quota <= 0
    || draft.period.None? || draft.period.value < 0 || draft.period.value > 3
    || (exists other | other in b.plans :: b.plans[other].name == draft.name)
    || (owner.Some? && owner.value !in b.users)
  }

  /** A plan is stored under the name it is given, less white space around it, and its owner's marks run from now. */
  lemma CreatedAsNamed(
      b: Books, id: int, before: string, draft: Plan, after: string, owner: Option<int>, now: Moment, fails: bool)
    requires Tight(draft.name, IsGoSpace) && AllSpace(before, IsGoSpace) && AllSpace(after, IsGoSpace)
    ensures var untidy := draft.(name := before + draft.name + after);
            var done := Step(b, Create(id, untidy, owner, now, fails));
            if Refused(b, draft, owner) || fails then done == b
            else
              && done.plans == b.plans[id := draft] && done.daily == b.daily
              && (owner.None? ==> done.users == b.users)
              && (owner.Some? ==>
                    var end := Some(PlanPeriodEnd(now, draft.period));
                    done.users == b.users[owner.value := User(id, end, end)])
  {
    hide PlanPeriodEnd, TrimBy, NameTaken, ValidDraft, Refused;
    var untidy := draft.(name := before + draft.name + after);
    TrimKeeps(before, draft.name, after, IsGoSpace);
    assert Tidied(untidy) == draft;
    RefusedWhen(b, draft, owner);
  }

  lemma RefusedWhen(b: Books, draft: Plan, owner: Option<int>)
    ensures Refused(b, draft, owner) <==>
            !ValidDraft(draft) || NameTaken(b.plans, draft.name) || (owner.Some? && owner.value !in b.users)
  {
  }

  /** Association gives a user the plan and the same new expiry and mark; unless plan and user exist nothing happens. */
  lemma AssociatedAsTold(b: Books, user: int, plan: int, now: Moment)
    ensures var after := Step(b, Associate(user, plan, now));
            if user in b.users && plan in b.plans then
              var end := Some(PlanPeriodEnd(now, b.plans[plan].period));
              after == b.(users := b.users[user := User(plan, end, end)])
            else after == b
  {
  }

  // ----- marks stay within the paid-up time

  /** A reset mark is never five hours or more past the expiry. */
  predicate PaidUp(user: User) {
    user.reset.Some? ==> user.expiry.Some? && PaidUpTo(user.expiry.value, user.reset.value)
  }

  predicate AllPaidUp(b: Books) {
    forall id | id in b.users :: PaidUp(b.users[id])
  }

  /** Every mark a roll writes lies at least 28 days ahead and less than five hours past the expiry. */
  lemma RolledMark(b: Books, id: int, v: Visit)
    requires id in b.users && Rolls(b, id, v) && Known(b.PlanOf(id).period.value)
    ensures var mark := Visited(b, id, v).reset.value;
            v.rolledAt.PlusDays(28).AtMost(mark) && mark.Before(b.users[id].expiry.value.PlusHours(5))
    ensures Visited(b, id, v).(reset := b.users[id].reset) == b.users[id]
  {
    Advance(v.rolledAt, b.PlanOf(id).period.value);
  }

  /**
   Two steps can strand a mark: an edit that moves the expiry too far back, and a visit of a pass that read the
   user before such an edit or a change of plan, and rolls up to the expiry it has read.
   */
  predicate Extends(b: Books, e: Event) {
    match e
    case EditExpiry(user, expiry) =>
      user in b.users && expiry.Some? && b.users[user].reset.Some? ==>
        PaidUpTo(expiry.value, b.users[user].reset.value)
    case LateVisit(id, seen, plan, v) =>
      id in b.users && Writes(seen, plan, UsedBy(b.daily, id, seen, plan), v) ==>
        b.users[id].expiry.Some? && PaidUpTo(b.users[id].expiry.value, NextResetTime(v.rolledAt, plan.period.value))
    case _ => true
  }

  lemma StepKeepsMarksPaidUp(b: Books, e: Event)
    requires AllPaidUp(b)
    ensures AllPaidUp(Step(b, e)) <==> Extends(b, e)
  {
    hide NextResetTime, PlanPeriodEnd, Usage, TrimBy;
    var after := Step(b, e);
    if !Extends(b, e) {
      assert !PaidUp(after.users[if e.EditExpiry? then e.user else e.id]);
    } else {
      forall id | id in after.users ensures PaidUp(after.users[id]) {
        assert id in b.users ==> PaidUp(b.users[id]);
        if e.Associate? || e.Create? {
          EndIsPaidUp(after.users[id]);
        }
      }
    }
  }

  lemma EndIsPaidUp(user: User)
    ensures user.expiry == user.reset ==> PaidUp(user)
  {
  }

  /** Extending an expiry never strands a mark. */
  lemma ExtensionExtends(b: Books, user: int, expiry: Moment)
    requires AllPaidUp(b) && user in b.users
    requires b.users[user].expiry.Some? ==> b.users[user].expiry.value.AtMost(expiry)
    ensures Extends(b, EditExpiry(user, Some(expiry)))
  {
    assert PaidUp(b.users[user]);
  }

  /** Nor does a late visit, as long as the expiry has only been moved forward since it read the user. */
  lemma LateVisitExtends(b: Books, id: int, seen: User, plan: Plan, v: Visit)
    requires id in b.users && seen.expiry.Some?
    requires b.users[id].expiry.Some? && seen.expiry.value.AtMost(b.users[id].expiry.value)
    ensures Extends(b, LateVisit(id, seen, plan, v))
  {
    hide NextResetTime;
  }

  /** It happens: a pass reads a user, the expiry is cut short, and the pass rolls the mark past it. */
  lemma LateVisitStrands(now: Moment)
    ensures var plan := Plan("basic", 1, Some(MONTH));
            var seen := User(1, Some(NextResetTime(now, MONTH)), Some(now.PlusDays(-1)));
            var b := Books(map[7 := seen], map[1 := plan], []);
            var cut := Step(b, EditExpiry(7, Some(now)));
            && AllPaidUp(b) && AllPaidUp(cut)
            && !AllPaidUp(Step(cut, LateVisit(7, seen, plan, Visit(false, now, now, false))))
  {
    Advance(now, MONTH);
    hide NextResetTime;
    var plan := Plan("basic", 1, Some(MONTH));
    var seen := User(1, Some(NextResetTime(now, MONTH)), Some(now.PlusDays(-1)));
    var b := Books(map[7 := seen], map[1 := plan], []);
    var late := LateVisit(7, seen, plan, Visit(false, now, now, false));
    assert !PaidUp(Step(Step(b, EditExpiry(7, Some(now))), late).users[7]);
  }

  predicate AllExtend(b: Books, es: seq<Event>) {
    forall i | 0 <= i < |es| :: Extends(Run(b, es[..i]), es[i])
  }

  lemma {:induction false} RunKeepsMarksPaidUp(b: Books, es: seq<Event>)
    requires AllPaidUp(b) && AllExtend(b, es)
    ensures AllPaidUp(Run(b, es))
  {
    if es != [] {
      var n := |es| - 1;
      forall i | 0 <= i < n ensures Extends(Run(b, es[..n][..i]), es[..n][i]) {
        assert es[..n][..i] == es[..i];
        assert Extends(Run(b, es[..i]), es[i]);
      }
      RunKeepsMarksPaidUp(b, es[..n]);
      StepKeepsMarksPaidUp(Run(b, es[..n]), es[n]);
    }
  }

  // ----- a user's marks over a run of passes

  /** The step leaves the user their plan, and their mark unless it is an undisturbed pass. */
  predicate LeavesBe(e: Event, id: int, plan: int) {
    match e
    case Associate(user, _, _) => user != id
    case Create(planId, _, owner, _, _) => owner != Some(id) && planId != plan
    case LateVisit(other, _, _, _) => other != id
    case _ => true
  }

  predicate AllLeaveBe(es: seq<Event>, id: int, plan: int) {
    forall i | 0 <= i < |es| :: LeavesBe(es[i], id, plan)
  }

  predicate RollsIn(b: Books, e: Event, id: int) {
    e.Reconcile? && id in b.users && id in e.order[..Handled(e.order, e.visits)] && Rolls(b, id, e.visits[id])
  }

  /** The marks a user has had, first to last, and the moments of the rolls between them. */
  datatype History = History(marks: seq<Moment>, rolls: seq<Moment>) {
    predicate Calm(period: int)
      requires Known(period)
    {
      |marks| == |rolls| + 1 && Coverage.Calm(period, marks, rolls)
    }
  }

  function HistoryOf(b: Books, es: seq<Event>, id: int): (h: History)
    requires id in b.users && b.users[id].reset.Some?
    ensures h.marks != []
  {
    if es == [] then History([b.users[id].reset.value], [])
    else
      var n := |es| - 1;
      var before, h := Run(b, es[..n]), HistoryOf(b, es[..n], id);
      if RollsIn(before, es[n], id) then
        var v := es[n].visits[id];
        History(h.marks + [NextResetTime(v.rolledAt, before.PlanOf(id).period.value)], h.rolls + [v.rolledAt])
      else h
  }

  /**
   While a user keeps their plan, their marks form a run of roll-overs that ends at the stored mark, whatever
   passes the worker makes and whatever is done to the user's expiry, to other users and to other plans.
   */
  lemma {:induction false} HistoryIsARun(b: Books, es: seq<Event>, id: int)
    requires id in b.users && b.users[id].reset.Some? && b.PlanOf(id).period.Some?
    requires AllLeaveBe(es, id, b.users[id].plan)
    ensures var h, after := HistoryOf(b, es, id), Run(b, es);
            && IsRun(b.PlanOf(id).period.value, h.marks, h.rolls)
            && id in after.users && after.PlanOf(id) == b.PlanOf(id) && after.users[id].plan == b.users[id].plan
            && after.users[id].reset == Some(h.marks[|h.marks| - 1])
  {
    hide NextResetTime, PlanPeriodEnd, Usage, BillingPeriod, TrimBy;
    if es != [] {
      var n := |es| - 1;
      HistoryIsARun(b, es[..n], id);
      assert LeavesBe(es[n], id, b.users[id].plan);
    }
  }

  /**
   So the windows the worker bills a user by take every daily row from the first window's start to the stored mark
   once, once more for every handover, and not in a gap.
   */
  lemma WorkerBillsEveryRow(b: Books, es: seq<Event>, id: int, rows: seq<DailyRow>)
    requires id in b.users && b.users[id].reset.Some? && b.PlanOf(id).period.Some?
    requires AllLeaveBe(es, id, b.users[id].plan)
    requires Known(b.PlanOf(id).period.value) && HistoryOf(b, es, id).Calm(b.PlanOf(id).period.value)
    ensures var ws := Windows(b.PlanOf(id).period.value, HistoryOf(b, es, id).marks);
            && id in Run(b, es).users && Run(b, es).users[id].reset == Some(ws[|ws| - 1].to)
            && Billed(ws, rows, id) ==
               Total(rows, id, Once(ws)) + Total(rows, id, Again(ws)) - Total(rows, id, Never(ws))
  {
    hide BillingPeriod, NextResetTime;
    HistoryIsARun(b, es, id);
    var h := HistoryOf(b, es, id);
    RunBillsEveryRow(b.PlanOf(id).period.value, h.marks, h.rolls, rows, id);
  }

  /** A due roll needs an expiry that is paid up to more than 28 days past the mark. */
  lemma DueRollNeedsRenewal(user: User, plan: Plan, used: int, v: Visit)
    requires Writes(user, plan, used, v) && Known(plan.period.value) && Due(user.reset.value, v.rolledAt)
    ensures PaidUpTo(user.expiry.value, user.reset.value.PlusDays(28))
  {
    Advance(v.rolledAt, plan.period.value);
  }

  /** As association leaves a user, no due visit rolls the mark: every roll waits for an extension. */
  lemma NoRollBeforeRenewal(now: Moment, planId: int, plan: Plan, used: int, v: Visit)
    requires plan.period.Some? && Known(plan.period.value)
    requires Due(WithPlan(planId, plan, now).reset.value, v.rolledAt)
    ensures !Writes(WithPlan(planId, plan, now), plan, used, v)
  {
    hide PlanPeriodEnd, NextResetTime;
    Advance(v.rolledAt, plan.period.value);
  }

  /**
   So a late renewal loses rows: the passes between the mark and the renewal roll nothing, the first after it
   rolls late, and the days from the mark to a day before that roll are left to no window.
   */
  lemma LateRenewalLosesRows(start: Moment, roll: Moment, renewed: Moment, day: int)
    requires var mark := PlanPeriodEnd(start, Some(MONTH));
             && mark.PlusDays(1).Before(roll) && PaidUpTo(renewed, NextResetTime(roll, MONTH))
             && DayExists(roll, 1) && mark.Before(Midnight(day)) && Midnight(day).Before(roll.PlusDays(-1))
    ensures var b := Books(map[7 := User(0, None, None)], map[1 := Plan("basic", 1, Some(MONTH))], []);
            var mark := PlanPeriodEnd(start, Some(MONTH));
            var visits := map[7 := Visit(false, roll, roll, false)];
            var before := Step(b, Associate(7, 1, start));
            var es := [Reconcile([7], visits), EditExpiry(7, Some(renewed)), Reconcile([7], visits)];
            && before.users[7].reset == Some(mark)
            && Step(before, es[0]) == before
            && HistoryOf(before, es, 7) == History([mark, NextResetTime(roll, MONTH)], [roll])
            && Covering(Windows(MONTH, HistoryOf(before, es, 7).marks), Midnight(day)) == 0
  {
    hide NextResetTime, BillingPeriod, PlanPeriodEnd, DayExists, Usage, Covering;
    var plan, mark := Plan("basic", 1, Some(MONTH)), PlanPeriodEnd(start, Some(MONTH));
    var visits := map[7 := Visit(false, roll, roll, false)];
    var before := Step(Books(map[7 := User(0, None, None)], map[1 := plan], []), Associate(7, 1, start));
    var pass, renewal := Reconcile([7], visits), EditExpiry(7, Some(renewed));
    NoRollBeforeRenewal(start, 1, plan, before.Used(7), visits[7]);
    OnlyVisit(before, visits);
    var after := Step(before, renewal);
    OnlyVisit(after, visits);
    OneMore(before, [], pass, 7);
    OneMore(before, [] + [pass], renewal, 7);
    OneMore(before, [] + [pass] + [renewal], pass, 7);
    assert [] + [pass] + [renewal] + [pass] == [pass, renewal, pass];
    var marks := [mark, NextResetTime(roll, MONTH)];
    GapsExactly(MONTH, marks, [roll], Midnight(day), 0);
    CoveringTwo(Windows(MONTH, marks), Midnight(day));
  }

  lemma OnlyVisit(b: Books, visits: map<int, Visit>)
    requires b.users.Keys == {7} && 7 in visits
    ensures Step(b, Reconcile([7], visits)) == b.(users := map[7 := Visited(b, 7, visits[7])])
    ensures RollsIn(b, Reconcile([7], visits), 7) <==> Rolls(b, 7, visits[7])
  {
    assert Handled([7], visits) == 1 + Handled([7][1..], visits) && [7][1..] == [];
    assert [7][..1] == [7] && 7 in [7];
  }

  /** A run with one more event. */
  lemma OneMore(b: Books, es: seq<Event>, e: Event, id: int)
    requires id in b.users && b.users[id].reset.Some?
    ensures var before, h, more := Run(b, es), HistoryOf(b, es, id), es + [e];
            && Run(b, more) == Step(before, e)
            && HistoryOf(b, more, id) ==
               if RollsIn(before, e, id) then
                 var v := e.visits[id];
                 History(h.marks + [NextResetTime(v.rolledAt, before.PlanOf(id).period.value)], h.rolls + [v.rolledAt])
               else h
  {
    hide Step, RollsIn, NextResetTime;
    assert (es + [e])[..|es|] == es;
  }

  /** What becomes of a user depends on that user, the plans and the daily rows alone. */
  lemma VisitedAlone(b: Books, c: Books, id: int, v: Visit)
    requires id in b.users && id in c.users && b.users[id] == c.users[id]
    requires b.plans == c.plans && b.daily == c.daily
    ensures Visited(b, id, v) == Visited(c, id, v)
  {
  }

  /** The users during a pass: the first `i` in order have been handled, each by their state at its start. */
  predicate Partway(b: Books, users: map<int, User>, order: seq<int>, visits: map<int, Visit>, i: nat) {
    && i <= Handled(order, visits)
    && users.Keys == b.users.Keys
    && (forall k | 0 <= k < |order| :: order[k] in users)
    && (forall k | 0 <= k < i :: users[order[k]] == Visited(b, order[k], visits[order[k]]))
    && (forall k | i <= k < |order| :: users[order[k]] == b.users[order[k]])
  }

  lemma PassStarts(b: Books, order: seq<int>, visits: map<int, Visit>)
    requires forall id :: id in order <==> id in b.users
    ensures Partway(b, b.users, order, visits, 0)
  {
    forall k | 0 <= k < |order| ensures order[k] in b.users {
      var id := order[k];
      assert id in order;
    }
  }

  lemma NextIsUntouched(b: Books, users: map<int, User>, order: seq<int>, visits: map<int, Visit>, i: nat)
    requires Partway(b, users, order, visits, i) && i < |order|
    ensures order[i] in users && users[order[i]] == b.users[order[i]]
  {
  }

  lemma PassReached(b: Books, users: map<int, User>, order: seq<int>, visits: map<int, Visit>, i: nat)
    requires Partway(b, users, order, visits, i)
    ensures forall k | 0 <= k < i :: order[k] in visits
  {
  }

  lemma PassGoesOn(b: Books, users: map<int, User>, order: seq<int>, visits: map<int, Visit>, i: nat)
    requires Partway(b, users, order, visits, i) && i < |order| && order[i] in visits
    requires forall j, k | 0 <= j < k < |order| :: order[j] != order[k]
    ensures Partway(b, users[order[i] := Visited(b, order[i], visits[order[i]])], order, visits, i + 1)
  {
    hide Visited;
  }

  /** A pass has done its work when it has handled the users it reached, each once, and no others. */
  lemma PassDone(b: Books, users: map<int, User>, order: seq<int>, visits: map<int, Visit>, i: nat)
    requires forall id :: id in order <==> id in b.users
    requires forall j, k | 0 <= j < k < |order| :: order[j] != order[k]
    requires Partway(b, users, order, visits, i) && (i < |order| ==> order[i] !in visits)
    ensures users == Step(b, Reconcile(order, visits)).users
  {
    hide Visited;
    forall id | id in users ensures users[id] == Step(b, Reconcile(order, visits)).users[id] {
      var k :| 0 <= k < |order| && order[k] == id;
    }
  }

  // ----- the actions

  class Store {
    var users: map<int, User>
    var plans: map<int, Plan>
    var daily: seq<DailyRow>

    ghost function Contents(): Books
      reads this
    {
      Books(users, plans, daily)
    }

    method AssociatePlan(userId: int, planId: int, now: Moment) returns (found: bool)
      modifies this`users
      ensures found <==> planId in plans
      ensures Contents() == Step(old(Contents()), Associate(userId, planId, now))
    {
      found := planId in plans;
      if !found {
        return;
      }
      var end := PlanPeriodEnd(now, plans[planId].period);
      if userId in users {
        users := users[userId := users[userId].(plan := planId, expiry := Some(end), reset := Some(end))];
      }
    }

    /** One transaction: an error leaves nothing behind. */
    method CreatePlan(id: int, untidy: Plan, owner: Option<int>, now: Moment, fails: bool) returns (ok: bool)
      requires id !in plans
      modifies this`users, this`plans
      ensures Contents() == Step(old(Contents()), Create(id, untidy, owner, now, fails))
      ensures ok <==> id in plans
    {
      ok := false;
      var draft := untidy.(name := TrimBy(untidy.name, IsGoSpace));
      if draft.name == "" || |draft.name| > PLAN_NAME_LIMIT || draft.quota <= 0
         || draft.period.None? || draft.period.value < MONTH || draft.period.value > YEAR {
        return;
      }
      if exists other | other in plans :: plans[other].name == draft.name {
        return;
      }
      var created := plans[id := draft];
      if owner.Some? {
        if owner.value !in users {
          return;
        }
        var end := PlanPeriodEnd(now, draft.period);
        if fails {
          return;
        }
        users := users[owner.value := users[owner.value].(plan := id, expiry := Some(end), reset := Some(end))];
      }
      if fails {
        return;
      }
      plans := created;
      ok := true;
    }

    method EditUser(userId: int, expiry: Option<Moment>)
      modifies this`users
      ensures Contents() == Step(old(Contents()), EditExpiry(userId, expiry))
    {
      if expiry.Some? && userId in users {
        users := users[userId := users[userId].(expiry := expiry)];
      }
    }

    method PeriodTrafficUsage(userId: int) returns (total: int)
      requires userId in users
      ensures total == Contents().Used(userId)
    {
      var user := users[userId];
      var plan := if user.plan in plans then plans[user.plan] else NO_PLAN;
      if user.reset.None? || plan.period.None? {
        return 0;
      }
      var window := BillingPeriod(user.reset.value, plan.period.value);
      total := 0;
      for i := 0 to |daily|
        invariant total == Usage(daily[..i], userId, window)
      {
        assert daily[..i + 1][..i] == daily[..i];
        var date := Midnight(daily[i].day);
        if daily[i].user == userId && window.from.AtMost(date) && date.AtMost(window.to) {
          total := total + daily[i].total;
        }
      }
      assert daily[..|daily|] == daily;
    }

    method RollTrafficPeriod(userId: int, period: int, now: Moment, writeFails: bool)
      requires userId in users
      modifies this`users
      ensures var user := old(users)[userId];
              users == if user.expiry.Some? && PaidUpTo(user.expiry.value, NextResetTime(now, period)) && !writeFails
                       then old(users)[userId := user.(reset := Some(NextResetTime(now, period)))] else old(users)
    {
      var next := NextResetTime(now, period);
      if users[userId].expiry.None? {
        return;
      }
      if !next.Before(users[userId].expiry.value.PlusHours(SLACK_HOURS)) {
        return;
      }
      if !writeFails {
        users := users[userId := users[userId].(reset := Some(next))];
      }
    }

    /** The body of the pass's loop: a user without a mark or a period is left alone, as is one whose usage fails. */
    method ReconcileUser(id: int, v: Visit)
      requires id in users
      modifies this`users
      ensures users == old(users)[id := Visited(old(Contents()), id, v)]
    {
      var user := users[id];
      var plan := if user.plan in plans then plans[user.plan] else NO_PLAN;
      if user.reset.None? || plan.period.None? {
        return;
      }
      var used := PeriodTrafficUsage(id);
      if v.usageFails {
        return;
      }
      if user.reset.value.Before(v.checkedAt) || used > plan.quota {
        RollTrafficPeriod(id, plan.period.value, v.rolledAt, v.writeFails);
      }
    }

    /** One pass over every user, up to cancellation. */
    method ReconcileTrafficPlans(order: seq<int>, visits: map<int, Visit>) returns (cancelled: bool)
      requires forall id :: id in order <==> id in users
      requires forall i, j | 0 <= i < j < |order| :: order[i] != order[j]
      modifies this`users
      ensures Contents() == Step(old(Contents()), Reconcile(order, visits))
      ensures cancelled <==> exists id | id in old(users) :: id !in visits
    {
      hide Visited, Partway;
      ghost var b := Contents();
      PassStarts(b, order, visits);
      for i := 0 to |order|
        invariant plans == b.plans && daily == b.daily
        invariant Partway(b, users, order, visits, i)
      {
        var id := order[i];
        assert id in users && users[id] == b.users[id] by {
          NextIsUntouched(b, users, order, visits, i);
        }
        if id !in visits {
          PassDone(b, users, order, visits, i);
          return true;
        }
        VisitedAlone(b, Contents(), id, visits[id]);
        PassGoesOn(b, users, order, visits, i);
        ReconcileUser(id, visits[id]);
      }
      PassDone(b, users, order, visits, |order|);
      PassReached(b, users, order, visits, |order|);
      return false;
    }
  }
}
