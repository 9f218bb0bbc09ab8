/**
 Agents and rows when actions overlap. While actions are in flight an agent that is up matches the rows as they
 will be once every row that is waiting to be written has been; each step keeps that except in the cases given,
 exactly.
 */
module Overlap {
  import opened Wrappers
  import opened PortTable
  import opened Refinement
  import opened InFlight
  import opened StepEffects
  import D = Deployment

  // ----- the rows as they will be

  /** The state once the landings have been written, in the order of their calls. */
  function Landed(s: D.State, ls: seq<Landing>): D.State {
    if ls == [] then s
    else
      var l := ls[|ls| - 1];
      Written(Landed(s, ls[..|ls| - 1]), l.task, l.id)
  }

  function View(w: World): D.State {
    Landed(w.now, w.landing)
  }

  /** Writing touches rows alone, and depends on rows alone. */
  lemma {:induction false} LandedFrame(s: D.State, t: D.State, ls: seq<Landing>)
    requires s.rules == t.rules && s.chains == t.chains
    ensures Landed(t, ls) == t.(rules := Landed(s, ls).rules, chains := Landed(s, ls).chains)
    decreases |ls|
  {
    if ls != [] {
      LandedFrame(s, t, ls[..|ls| - 1]);
    }
  }

  /** The same rules but for their names and chains. */
  predicate AlikeRules(a: map<nat, D.RuleRow>, b: map<nat, D.RuleRow>) {
    && a.Keys == b.Keys
    && forall id | id in a :: a[id].node == b[id].node && a[id].port == b[id].port && a[id].remote == b[id].remote
  }

  predicate Alike(a: D.State, b: D.State) {
    a == b.(rules := a.rules) && AlikeRules(a.rules, b.rules)
  }

  lemma AlikeRulesAt(a: map<nat, D.RuleRow>, b: map<nat, D.RuleRow>, node: int)
    requires AlikeRules(a, b)
    ensures RulesAt(a, node) == RulesAt(b, node)
  {
    assert forall id :: id in a <==> id in b;
  }

  /** Names and chains do not matter to the agents. */
  lemma AlikeInv(a: D.State, b: D.State)
    requires Alike(a, b) && Inv(a)
    ensures Inv(b)
  {
    forall node | node in b.agents ensures Refined(b, node) {
      AlikeRulesAt(a.rules, b.rules, node);
      assert Refined(a, node);
    }
  }

  lemma AlikeSym(a: D.State, b: D.State)
    requires Alike(a, b)
    ensures Alike(b, a)
  {
  }

  lemma AlikeTrans(a: D.State, b: D.State, c: D.State)
    requires Alike(a, b) && Alike(b, c)
    ensures Alike(a, c)
  {
  }

  lemma AlikeWritten(a: D.State, b: D.State, task: Task, id: nat)
    requires Alike(a, b)
    ensures Alike(Written(a, task, id), Written(b, task, id))
  {
  }

  /** Two changes of one rule that set its port or its address differently: which one lands last decides. */
  predicate Conflict(a: Task, b: Task) {
    && a.ChangingRule? && b.ChangingRule? && a.id == b.id
    && ((a.port != a.oldPort && b.port != b.oldPort && a.port != b.port) ||
        (a.setsRemote && b.setsRemote && a.remote != b.remote))
  }

  /** The id of the row a landing writes to, for rules and for chains. */
  predicate SameNewRow(a: Landing, b: Landing) {
    || (a.task.AddingRule? && b.task.AddingRule? && a.id == b.id)
    || (a.task.AddingChain? && b.task.AddingChain? && a.id == b.id)
  }

  predicate OnNewRow(a: Landing, b: Task) {
    || (a.task.AddingRule? && (b.DeletingRule? || b.ChangingRule?) && b.id == a.id)
    || (a.task.AddingChain? && b.DeletingChain? && b.id == a.id)
  }

  predicate Commute(a: Landing, b: Landing) {
    !Conflict(a.task, b.task) && !SameNewRow(a, b) && !OnNewRow(a, b.task) && !OnNewRow(b, a.task)
  }

  lemma RuleWritesCommute(rules: map<nat, D.RuleRow>, a: Landing, b: Landing)
    requires Commute(a, b)
    ensures AlikeRules(WrittenRules(WrittenRules(rules, a.task, a.id), b.task, b.id),
                       WrittenRules(WrittenRules(rules, b.task, b.id), a.task, a.id))
  {
    hide Changed;
    if a.task.ChangingRule? && b.task.ChangingRule? && a.task.id == b.task.id && a.task.id in rules {
      ChangesCommute(rules[a.task.id], a.task, b.task);
    }
  }

  lemma ChangesCommute(row: D.RuleRow, a: Task, b: Task)
    requires a.ChangingRule? && b.ChangingRule? && a.id == b.id && !Conflict(a, b)
    ensures var ab, ba := Changed(Changed(row, a), b), Changed(Changed(row, b), a);
            ab.node == ba.node && ab.port == ba.port && ab.remote == ba.remote
  {
  }

  lemma ChainWritesCommute(chains: map<nat, D.ChainRow>, a: Landing, b: Landing)
    requires Commute(a, b)
    ensures WrittenChains(WrittenChains(chains, a.task, a.id), b.task, b.id) ==
            WrittenChains(WrittenChains(chains, b.task, b.id), a.task, a.id)
  {
  }

  lemma WritesCommute(s: D.State, a: Landing, b: Landing)
    requires Commute(a, b)
    ensures Alike(Written(Written(s, a.task, a.id), b.task, b.id), Written(Written(s, b.task, b.id), a.task, a.id))
  {
    hide WrittenRules, WrittenChains, AlikeRules, Commute;
    RuleWritesCommute(s.rules, a, b);
    ChainWritesCommute(s.chains, a, b);
  }

  predicate CommuteAll(l: Landing, ls: seq<Landing>) {
    forall i | 0 <= i < |ls| :: Commute(l, ls[i])
  }

  /** What commutes with all the others may as well be written first. */
  lemma {:induction false} WriteFirst(s: D.State, l: Landing, ls: seq<Landing>)
    requires CommuteAll(l, ls)
    ensures Alike(Landed(Written(s, l.task, l.id), ls), Written(Landed(s, ls), l.task, l.id))
    decreases |ls|
  {
    if ls != [] {
      var n := |ls| - 1;
      var before, last := Landed(s, ls[..n]), ls[n];
      WriteFirst(s, l, ls[..n]);
      AlikeWritten(Landed(Written(s, l.task, l.id), ls[..n]), Written(before, l.task, l.id), last.task, last.id);
      WritesCommute(before, l, last);
      AlikeTrans(Landed(Written(s, l.task, l.id), ls), Written(Written(before, l.task, l.id), last.task, last.id),
                 Written(Landed(s, ls), l.task, l.id));
    }
  }

  /** And what lands out of turn leaves the rows as they would have been. */
  lemma {:induction false} WriteOutOfTurn(s: D.State, ls: seq<Landing>, k: nat)
    requires k < |ls| && CommuteAll(ls[k], Without(ls, k))
    ensures Alike(Landed(Written(s, ls[k].task, ls[k].id), Without(ls, k)), Landed(s, ls))
    decreases |ls|
  {
    var n := |ls| - 1;
    if k == n {
      assert Without(ls, k) == ls[..n];
      WriteFirst(s, ls[k], ls[..n]);
    } else {
      var fewer := Without(ls, k);
      assert fewer[..n - 1] == Without(ls[..n], k) && fewer[n - 1] == ls[n];
      assert CommuteAll(ls[k], fewer[..n - 1]);
      WriteOutOfTurn(s, ls[..n], k);
      AlikeWritten(Landed(Written(s, ls[k].task, ls[k].id), fewer[..n - 1]), Landed(s, ls[..n]), ls[n].task, ls[n].id);
    }
  }

  // ----- what every world keeps: ids are fresh, and tasks know their rows

  predicate Queued(q: seq<seq<Task>>, task: Task) {
    exists tasks | tasks in q :: task in tasks
  }

  predicate InLanding(ls: seq<Landing>, task: Task) {
    exists l | l in ls :: task == l.task || task in l.rest
  }

  predicate Holds(w: World, task: Task) {
    Queued(w.waiting, task) || InLanding(w.landing, task)
  }

  /** The row that is to be changed or deleted had its id by the time it was read. */
  predicate Refers(s: D.State, task: Task) {
    && Fits(s, task)
    && (task.DeletingRule? || task.ChangingRule? ==> task.id < s.nextRule)
    && (task.DeletingChain? ==> task.id < s.nextChain)
  }

  predicate TaskOk(w: World, task: Task) {
    Refers(w.now, task) && forall l | l in w.landing :: !OnNewRow(l, task)
  }

  /** A row waiting to be inserted has an id of its own. */
  predicate FreshRow(s: D.State, l: Landing) {
    && (l.task.AddingRule? ==> l.id < s.nextRule && l.id !in s.rules)
    && (l.task.AddingChain? ==> l.id < s.nextChain && l.id !in s.chains)
  }

  ghost predicate Shape(w: World) {
    && (forall id | id in w.now.rules :: id < w.now.nextRule)
    && (forall id | id in w.now.chains :: id < w.now.nextChain)
    && (forall task | Holds(w, task) :: TaskOk(w, task))
    && (forall l | l in w.landing :: FreshRow(w.now, l))
    && (forall i, j | 0 <= i < |w.landing| && 0 <= j < |w.landing| && i != j :: !SameNewRow(w.landing[i], w.landing[j]))
  }

  /** Made from rows that are there. */
  predicate Known(s: D.State, task: Task) {
    && Fits(s, task)
    && (task.DeletingRule? || task.ChangingRule? ==> task.id in s.rules)
    && (task.DeletingChain? ==> task.id in s.chains)
  }

  lemma {:induction false} PlanBelowKnown(s: D.State, ids: set<nat>, host: string, k: nat)
    ensures forall task | task in PlanBelow(s.rules, ids, host, k).0 :: Known(s, task)
  {
    if k > 0 {
      PlanBelowKnown(s, ids, host, k - 1);
    }
  }

  /** An action acts on a row it has read first. */
  lemma PlanKnown(seen: Reads, r: Request)
    ensures forall task | task in Plan(seen, r) :: Known(seen.first, task)
  {
    if r.ModifyRules? {
      PlanBelowKnown(seen.first, r.ids, r.host, seen.first.nextRule);
    }
  }

  lemma KnownIsOk(w: World, s: D.State, task: Task)
    requires Past(w, s) && Known(s, task)
    ensures TaskOk(w, task)
  {
  }

  lemma QueuedSplit(q: seq<seq<Task>>, more: seq<Task>, task: Task)
    ensures Queued(q + Queue(more), task) <==> Queued(q, task) || task in more
  {
    if Queued(q, task) {
      var tasks :| tasks in q && task in tasks;
      assert tasks in q + Queue(more);
    }
    if task in more {
      assert more in q + Queue(more);
    }
  }

  lemma QueuedWithout(q: seq<seq<Task>>, k: nat, task: Task)
    requires k < |q| && Queued(Without(q, k), task)
    ensures Queued(q, task)
  {
    var tasks :| tasks in Without(q, k) && task in tasks;
    assert tasks in q;
  }

  lemma LandingWithout(ls: seq<Landing>, k: nat, task: Task)
    requires k < |ls| && InLanding(Without(ls, k), task)
    ensures InLanding(ls, task)
  {
    var l :| l in Without(ls, k) && (task == l.task || task in l.rest);
    assert l in ls;
  }

  lemma BeginShape(w: World, r: Request, seen: Reads)
    requires Shape(w) && Enabled(w, Begin(r, seen))
    ensures Shape(Step(w, Begin(r, seen)))
  {
    hide Plan, Known, Past, Refers;
    var after := Step(w, Begin(r, seen));
    PlanKnown(seen, r);
    forall task | Holds(after, task) ensures TaskOk(after, task) {
      QueuedSplit(w.waiting, Plan(seen, r), task);
      if Holds(w, task) {
        assert TaskOk(w, task);
      } else {
        KnownIsOk(w, seen.first, task);
      }
    }
  }

  /** An action's next task is one of the world's tasks, and so are the tasks after it. */
  lemma HeadHolds(w: World, k: nat, task: Task)
    requires k < |w.waiting| && w.waiting[k] != []
    requires task == w.waiting[k][0] || task in w.waiting[k][1..] || Queued(Without(w.waiting, k), task)
    ensures Holds(w, task)
  {
    if Queued(Without(w.waiting, k), task) {
      QueuedWithout(w.waiting, k, task);
    } else {
      assert w.waiting[k] in w.waiting;
    }
  }

  /** A row about to be given an id is none of the rows there are or will be. */
  lemma NewLandingApart(w: World, k: nat)
    requires Shape(w) && k < |w.waiting| && w.waiting[k] != []
    ensures var task := w.waiting[k][0];
            var l := Landing(task, FreshId(w.now, task), w.waiting[k][1..]);
            && FreshRow(Reserved(w.now, task), l)
            && forall i | 0 <= i < |w.landing| :: !SameNewRow(w.landing[i], l) && !SameNewRow(l, w.landing[i])
  {
    forall i | 0 <= i < |w.landing| ensures FreshRow(w.now, w.landing[i]) {
      assert w.landing[i] in w.landing;
    }
  }

  lemma RefersStill(s: D.State, t: D.State, task: Task)
    requires Refers(s, task) && s.rules == t.rules && s.chains == t.chains
    requires s.nextRule <= t.nextRule && s.nextChain <= t.nextChain
    ensures Refers(t, task)
  {
  }

  lemma StillOk(w: World, task: Task, head: Task)
    requires TaskOk(w, task)
    ensures forall rest :: !OnNewRow(Landing(head, FreshId(w.now, head), rest), task)
  {
  }

  lemma CallTasks(w: World, e: Event, task: Task)
    requires Shape(w) && Enabled(w, e) && e.Call? && Holds(Step(w, e), task)
    ensures TaskOk(Step(w, e), task)
  {
    hide Handled, Refers, OnNewRow, SameNewRow, FreshRow;
    var after := Step(w, e);
    if Queued(after.waiting, task) {
      HeadHolds(w, e.k, task);
    } else {
      var l :| l in after.landing && (task == l.task || task in l.rest);
      if l !in w.landing {
        HeadHolds(w, e.k, task);
      } else {
        assert InLanding(w.landing, task);
      }
    }
    assert TaskOk(w, task);
    StillOk(w, task, w.waiting[e.k][0]);
    RefersStill(w.now, after.now, task);
  }

  lemma CallShape(w: World, e: Event)
    requires Shape(w) && Enabled(w, e) && e.Call?
    ensures Shape(Step(w, e))
  {
    hide Handled, TaskOk, Holds;
    var after := Step(w, e);
    NewLandingApart(w, e.k);
    forall task | Holds(after, task) {
      CallTasks(w, e, task);
    }
  }

  lemma WriteUncalledShape(w: World, e: Event)
    requires Shape(w) && Enabled(w, e) && e.WriteUncalled?
    ensures Shape(Step(w, e))
  {
    var after := Step(w, e);
    var head := w.waiting[e.k][0];
    HeadHolds(w, e.k, head);
    forall task | Holds(after, task) ensures TaskOk(after, task) {
      QueuedSplit(Without(w.waiting, e.k), w.waiting[e.k][1..], task);
      if Queued(after.waiting, task) {
        HeadHolds(w, e.k, task);
      }
      assert TaskOk(w, task);
    }
  }

  lemma WriteShape(w: World, e: Event)
    requires Shape(w) && Enabled(w, e) && e.Write?
    ensures Shape(Step(w, e))
  {
    var after, l := Step(w, e), w.landing[e.k];
    assert l in w.landing;
    forall task | Holds(after, task) ensures TaskOk(after, task) {
      QueuedSplit(w.waiting, l.rest, task);
      if InLanding(after.landing, task) {
        LandingWithout(w.landing, e.k, task);
      }
      assert Holds(w, task) && TaskOk(w, task);
    }
    forall other | other in after.landing ensures FreshRow(after.now, other) {
      var i :| 0 <= i < |w.landing| && i != e.k && w.landing[i] == other;
      assert !SameNewRow(l, other) && FreshRow(w.now, other);
    }
  }

  lemma StepKeepsShape(w: World, e: Event)
    requires Shape(w) && Enabled(w, e)
    ensures Shape(Step(w, e))
  {
    match e
    case Begin(r, seen) => BeginShape(w, r, seen);
    case Call(_, _, _) => CallShape(w, e);
    case WriteUncalled(_) => WriteUncalledShape(w, e);
    case Write(_) => WriteShape(w, e);
    case _ =>
      forall task | Holds(Step(w, e), task) ensures TaskOk(Step(w, e), task) {
        assert Holds(w, task) && TaskOk(w, task);
      }
  }

  // ----- earlier states

  lemma PastNow(w: World)
    requires Shape(w)
    ensures Past(w, w.now)
  {
  }

  lemma CallPast(w: World, e: Event, s: D.State)
    requires Shape(w) && Past(w, s) && Enabled(w, e) && e.Call?
    ensures Past(Step(w, e), s)
  {
    hide Handled, Shape;
  }

  lemma WritePast(w: World, e: Event, s: D.State)
    requires Shape(w) && Past(w, s) && Enabled(w, e) && (e.Write? || e.WriteUncalled?)
    ensures Past(Step(w, e), s)
  {
    hide Shape;
    var after := Step(w, e);
    if e.Write? {
      assert w.landing[e.k] in w.landing;
      assert forall l | l in after.landing :: l in w.landing;
    }
  }

  lemma RestPast(w: World, e: Event, s: D.State)
    requires Past(w, s) && Enabled(w, e) && !e.Call? && !e.Write? && !e.WriteUncalled?
    ensures Past(Step(w, e), s)
  {
    hide Plan;
  }

  /** So an action's reads may be taken from any states that have been: all of them are allowed for. */
  lemma {:induction false} EarlierIsPast(w: World, es: seq<Event>)
    requires Shape(w) && IsRun(w, es)
    ensures Shape(Run(w, es)) && Past(Run(w, es), w.now)
    decreases |es|
  {
    hide Shape, Past, Step;
    if es == [] {
      PastNow(w);
    } else {
      var before, e := Run(w, es[..|es| - 1]), es[|es| - 1];
      EarlierIsPast(w, es[..|es| - 1]);
      StepKeepsShape(before, e);
      if e.Call? {
        CallPast(before, e, w.now);
      } else if e.Write? || e.WriteUncalled? {
        WritePast(before, e, w.now);
      } else {
        RestPast(before, e, w.now);
      }
    }
  }

  // ----- what every world should keep

  predicate NoConflicts(ls: seq<Landing>) {
    forall i, j | 0 <= i < |ls| && 0 <= j < |ls| && i != j :: !Conflict(ls[i].task, ls[j].task)
  }

  /**
   The agents match the rows as they will be, in whatever order the rows still to be written land: no two of
   them are changes of one rule that disagree.
   */
  predicate Matched(w: World) {
    Inv(View(w)) && NoConflicts(w.landing)
  }

  lemma {:induction false} FitsLanded(s: D.State, ls: seq<Landing>, task: Task)
    requires Fits(s, task) && forall l | l in ls :: !OnNewRow(l, task)
    ensures Fits(Landed(s, ls), task)
    decreases |ls|
  {
    if ls != [] {
      var n := |ls| - 1;
      assert ls[n] in ls;
      FitsLanded(s, ls[..n], task);
    }
  }

  lemma FitsView(w: World, task: Task)
    requires Shape(w) && Holds(w, task)
    ensures Fits(View(w), task)
  {
    assert TaskOk(w, task);
    FitsLanded(w.now, w.landing, task);
  }

  /** The call goes the same way seen from the rows as they will be. */
  lemma CalledOnView(s: D.State, v: D.State, task: Task, fate: Fate, bindable: bool)
    requires s.agents == v.agents
    ensures var called, seen := Called(s, task, fate, bindable), Called(v, task, fate, bindable);
            called.ok == seen.ok && called.state == s.(agents := seen.state.agents) &&
            seen.state == v.(agents := seen.state.agents)
  {
    hide Handled;
  }

  lemma CallOnView(w: World, k: nat, fate: Fate, bindable: bool)
    requires Enabled(w, Call(k, fate, bindable))
    ensures View(Step(w, Call(k, fate, bindable))) == AfterCall(View(w), w.waiting[k][0], fate, bindable)
  {
    hide Called, Written, Handled;
    var task := w.waiting[k][0];
    LandedFrame(w.now, w.now, w.landing);
    CalledOnView(w.now, View(w), task, fate, bindable);
    var called := Called(w.now, task, fate, bindable);
    var before := if called.ok then Reserved(called.state, task) else called.state;
    LandedFrame(w.now, before, w.landing);
    if called.ok {
      var l := Landing(task, FreshId(w.now, task), w.waiting[k][1..]);
      assert (w.landing + [l])[..|w.landing|] == w.landing;
    }
  }

  /** The call lands a change while another that disagrees with it is still to be written. */
  predicate Clashes(w: World, task: Task, fate: Fate, bindable: bool) {
    Called(w.now, task, fate, bindable).ok && exists l | l in w.landing :: Conflict(l.task, task)
  }

  lemma CallStep(w: World, e: Event)
    requires Shape(w) && Matched(w) && Enabled(w, e) && e.Call?
    ensures var task := w.waiting[e.k][0];
            Matched(Step(w, e)) <==>
            !CallBreaks(View(w), task, e.fate, e.bindable) && !Clashes(w, task, e.fate, e.bindable)
  {
    hide Inv, CallBreaks, Called, Conflict, AfterCall;
    var task := w.waiting[e.k][0];
    HeadHolds(w, e.k, task);
    FitsView(w, task);
    CallOnView(w, e.k, e.fate, e.bindable);
    CallKeeps(View(w), task, e.fate, e.bindable);
    ConflictsSnoc(w.landing, Landing(task, FreshId(w.now, task), w.waiting[e.k][1..]));
  }

  lemma ConflictsSnoc(ls: seq<Landing>, l: Landing)
    requires NoConflicts(ls)
    ensures NoConflicts(ls + [l]) <==> !exists other | other in ls :: Conflict(other.task, l.task)
  {
    var more := ls + [l];
    if other :| other in ls && Conflict(other.task, l.task) {
      var i :| 0 <= i < |ls| && ls[i] == other;
      assert more[i] == other && more[|ls|] == l;
    }
    assert forall i | 0 <= i < |ls| :: more[i] in ls;
  }

  lemma AllCommute(w: World, i: nat, j: nat)
    requires Shape(w) && NoConflicts(w.landing)
    requires i < |w.landing| && j < |w.landing| && i != j
    ensures Commute(w.landing[i], w.landing[j])
  {
    assert w.landing[i] in w.landing && w.landing[j] in w.landing;
    assert InLanding(w.landing, w.landing[i].task) && InLanding(w.landing, w.landing[j].task);
    assert TaskOk(w, w.landing[i].task) && TaskOk(w, w.landing[j].task);
  }

  lemma WriteStep(w: World, k: nat)
    requires Shape(w) && Matched(w) && k < |w.landing|
    ensures Matched(Step(w, Write(k)))
  {
    hide Inv, Conflict, Commute, Written, Alike;
    var others := Without(w.landing, k);
    forall i | 0 <= i < |others| ensures Commute(w.landing[k], others[i]) {
      AllCommute(w, k, if i < k then i else i + 1);
    }
    WriteOutOfTurn(w.now, w.landing, k);
    AlikeSym(View(Step(w, Write(k))), View(w));
    AlikeInv(View(w), View(Step(w, Write(k))));
  }

  lemma UncalledCommutes(w: World, k: nat)
    requires Shape(w) && Enabled(w, WriteUncalled(k))
    ensures var task := w.waiting[k][0];
            CommuteAll(Landing(task, FreshId(w.now, task), []), w.landing)
  {
    var task := w.waiting[k][0];
    HeadHolds(w, k, task);
    assert TaskOk(w, task);
    forall i | 0 <= i < |w.landing| ensures Commute(Landing(task, FreshId(w.now, task), []), w.landing[i]) {
      var l := w.landing[i];
      assert l in w.landing && InLanding(w.landing, l.task) && TaskOk(w, l.task) && FreshRow(w.now, l);
    }
  }

  lemma UncalledStep(w: World, k: nat)
    requires Shape(w) && Matched(w) && Enabled(w, WriteUncalled(k))
    ensures Matched(Step(w, WriteUncalled(k))) <==> !UncalledBreaks(View(w), w.waiting[k][0])
  {
    hide Inv, Conflict, Commute, Written, Alike, UncalledBreaks;
    var task := w.waiting[k][0];
    var id := FreshId(w.now, task);
    var after := View(Step(w, WriteUncalled(k)));
    HeadHolds(w, k, task);
    FitsView(w, task);
    UncalledKeeps(View(w), task);
    UncalledCommutes(w, k);
    WriteFirst(Reserved(w.now, task), Landing(task, id, []), w.landing);
    LandedFrame(w.now, w.now, w.landing);
    LandedFrame(w.now, Reserved(w.now, task), w.landing);
    assert Alike(after, AfterUncalled(View(w), task));
    if Inv(after) {
      AlikeInv(after, AfterUncalled(View(w), task));
    } else if Inv(AfterUncalled(View(w), task)) {
      AlikeSym(after, AfterUncalled(View(w), task));
      AlikeInv(AfterUncalled(View(w), task), after);
    }
  }

  /** The rows handed to a starting agent are not the rows as they will be, or list a port twice. */
  predicate SnapshotOff(w: World, node: int, rulesRead: D.State, chainsRead: D.State) {
    || RulesAt(rulesRead.rules, node) != RulesAt(View(w).rules, node)
    || ChainsAt(chainsRead.chains, node) != ChainsAt(View(w).chains, node)
    || !DistinctBelow(rulesRead.rules, node, rulesRead.nextRule)
  }

  lemma RegisterStep(w: World, e: Event)
    requires Shape(w) && Matched(w) && e.Register? && Enabled(w, e)
    ensures var registered := D.RegisterNode(w.now, e.node, e.from, e.peer, e.rulesRead, e.chainsRead);
            Matched(Step(w, e)) <==> !(registered.ok && SnapshotOff(w, e.node, e.rulesRead, e.chainsRead))
  {
    var node, rows, chains := e.node, e.rulesRead, e.chainsRead;
    var registered := D.RegisterNode(w.now, node, e.from, e.peer, rows, chains);
    var v, after := View(w), View(w.(now := registered.state));
    LandedFrame(w.now, w.now, w.landing);
    LandedFrame(w.now, registered.state, w.landing);
    if registered.ok {
      SnapRulesPairs(rows.rules, node, rows.nextRule);
      SnapChainsPorts(chains.chains, node, chains.nextChain);
      assert PairsBelow(rows.rules, node, rows.nextRule) == RulesAt(rows.rules, node);
      assert ChainsBelow(chains.chains, node, chains.nextChain) == ChainsAt(chains.chains, node);
      OnlyNode(v, after, node);
    }
  }

  lemma RestStep(w: World, e: Event)
    requires Matched(w) && (e.AddNode? || e.Init? || e.Crash?)
    ensures Matched(Step(w, e))
  {
    hide NoConflicts;
    var v, now := View(w), Step(w, e).now;
    LandedFrame(w.now, w.now, w.landing);
    LandedFrame(w.now, now, w.landing);
    match e
    case AddNode(node) =>
      forall other | other in v.agents ensures Refined(View(Step(w, e)), other) {
        assert Refined(v, other);
      }
    case Init(node, busy, udp) =>
      InitAgentKeeps(v, node, busy, udp);
      assert View(Step(w, e)) == D.InitAgent(v, node, busy, udp).state;
    case Crash(node) =>
      CrashKeeps(v, node);
      assert View(Step(w, e)) == D.Crash(v, node).state;
  }

  // ----- every step, every run

  /** The steps after which an agent does not, or may not, match the rows as they will be. */
  predicate Breaks(w: World, e: Event)
    requires Enabled(w, e)
  {
    match e
    case Call(k, fate, bindable) =>
      CallBreaks(View(w), w.waiting[k][0], fate, bindable) || Clashes(w, w.waiting[k][0], fate, bindable)
    case WriteUncalled(k) => UncalledBreaks(View(w), w.waiting[k][0])
    case Register(node, r, peer, rulesRead, chainsRead) =>
      D.RegisterNode(w.now, node, r, peer, rulesRead, chainsRead).ok && SnapshotOff(w, node, rulesRead, chainsRead)
    case _ => false
  }

  /** Of all steps of all actions, crashes and restarts, one ends the match exactly when it is such a step. */
  lemma StepKeepsExactly(w: World, e: Event)
    requires Shape(w) && Matched(w) && Enabled(w, e)
    ensures Shape(Step(w, e))
    ensures Matched(Step(w, e)) <==> !Breaks(w, e)
  {
    hide Shape, Matched, CallBreaks, UncalledBreaks, Clashes, SnapshotOff, Called, Written;
    StepKeepsShape(w, e);
    match e
    case Begin(_, _) => BeginStep(w, e);
    case Call(_, _, _) => CallStep(w, e);
    case WriteUncalled(k) => UncalledStep(w, k);
    case Write(k) => WriteStep(w, k);
    case Register(_, _, _, _, _) => RegisterStep(w, e);
    case _ => RestStep(w, e);
  }

  lemma BeginStep(w: World, e: Event)
    requires Matched(w) && e.Begin? && Enabled(w, e)
    ensures Matched(Step(w, e))
  {
  }

  predicate NeverBreaks(w: World, es: seq<Event>)
    requires IsRun(w, es)
  {
    es != [] ==> NeverBreaks(w, es[..|es| - 1]) && !Breaks(Run(w, es[..|es| - 1]), es[|es| - 1])
  }

  lemma StartMatches()
    ensures Shape(START) && Matched(START)
  {
  }

  lemma {:induction false} RunsKeepMatched(es: seq<Event>)
    requires IsRun(START, es) && NeverBreaks(START, es)
    ensures Shape(Run(START, es)) && Matched(Run(START, es))
    decreases |es|
  {
    hide Shape, Matched, Breaks, Step;
    if es == [] {
      StartMatches();
    } else {
      RunsKeepMatched(es[..|es| - 1]);
      StepKeepsExactly(Run(START, es[..|es| - 1]), es[|es| - 1]);
    }
  }

  /** Nothing is waiting to be written for the node. */
  predicate Quiet(w: World, node: int) {
    forall l | l in w.landing :: l.task.Node() != node
  }

  lemma NotYet(w: World, n: nat, i: nat)
    requires Shape(w) && n <= i < |w.landing|
    ensures w.landing[i].task.AddingRule? ==> w.landing[i].id !in Landed(w.now, w.landing[..n]).rules
    ensures w.landing[i].task.AddingChain? ==> w.landing[i].id !in Landed(w.now, w.landing[..n]).chains
  {
    if n == 0 {
      assert w.landing[i] in w.landing;
    } else {
      NotYet(w, n - 1, i);
      assert w.landing[..n][..n - 1] == w.landing[..n - 1];
      assert !SameNewRow(w.landing[n - 1], w.landing[i]);
    }
  }

  /** A write for another node leaves this node's rows alone. */
  lemma ElsewhereWritten(s: D.State, l: Landing, node: int)
    requires Fits(s, l.task) && l.task.Node() != node
    requires l.task.AddingRule? ==> l.id !in s.rules
    requires l.task.AddingChain? ==> l.id !in s.chains
    ensures RulesAt(Written(s, l.task, l.id).rules, node) == RulesAt(s.rules, node)
    ensures ChainsAt(Written(s, l.task, l.id).chains, node) == ChainsAt(s.chains, node)
    ensures forall id | id in s.rules && s.rules[id].node == node ::
              id in Written(s, l.task, l.id).rules && Written(s, l.task, l.id).rules[id] == s.rules[id]
  {
    var rules, chains := Written(s, l.task, l.id).rules, Written(s, l.task, l.id).chains;
    assert forall id | id in s.rules && s.rules[id].node == node :: id in rules && rules[id] == s.rules[id];
    assert forall id | id in rules && rules[id].node == node :: id in s.rules && rules[id] == s.rules[id];
    assert forall id | id in s.chains && s.chains[id].node == node :: id in chains && chains[id] == s.chains[id];
    assert forall id | id in chains && chains[id].node == node :: id in s.chains && chains[id] == s.chains[id];
  }

  lemma {:induction false} QuietBelow(w: World, node: int, n: nat)
    requires Shape(w) && Quiet(w, node) && n <= |w.landing|
    ensures RulesAt(Landed(w.now, w.landing[..n]).rules, node) == RulesAt(w.now.rules, node)
    ensures ChainsAt(Landed(w.now, w.landing[..n]).chains, node) == ChainsAt(w.now.chains, node)
    ensures forall id | id in w.now.rules && w.now.rules[id].node == node ::
              var rules := Landed(w.now, w.landing[..n]).rules; id in rules && rules[id] == w.now.rules[id]
  {
    if n > 0 {
      var l, before := w.landing[n - 1], w.landing[..n - 1];
      QuietBelow(w, node, n - 1);
      NotYet(w, n - 1, n - 1);
      assert l in w.landing && InLanding(w.landing, l.task) && TaskOk(w, l.task);
      FitsLanded(w.now, before, l.task);
      ElsewhereWritten(Landed(w.now, before), l, node);
      assert w.landing[..n][..n - 1] == before;
    }
  }

  /** A registration that reads its rows while nothing is waiting to be written for its node never ends the match. */
  lemma QuietRegistration(w: World, node: int, from: D.RegisterReq, peer: string)
    requires Shape(w) && Matched(w) && Quiet(w, node)
    ensures Enabled(w, Register(node, from, peer, w.now, w.now))
    ensures Matched(Step(w, Register(node, from, peer, w.now, w.now)))
  {
    hide Shape;
    PastNow(w);
    QuietBelow(w, node, |w.landing|);
    assert w.landing[..|w.landing|] == w.landing;
    assert RulePortsDistinct(View(w).rules);
    RegisterStep(w, Register(node, from, peer, w.now, w.now));
  }

  /**
   After any run of overlapping actions without such a step, an agent that is up serves exactly the rows as they
   will be: every rule port with its remote address, and every chain port. Where nothing is waiting to be written
   those are the rows there are, and rows never share what they should not.
   */
  lemma AgentsServeTheirRows(es: seq<Event>, node: int)
    requires IsRun(START, es) && NeverBreaks(START, es) && Run(START, es).now.AgentOf(node).Up?
    ensures var w := Run(START, es);
            var t := w.now.AgentOf(node).table;
            && RulesIn(t) == RulesAt(View(w).rules, node) && ChainsIn(t) == ChainsAt(View(w).chains, node)
            && (Quiet(w, node) ==>
                  && RulesIn(t) == RulesAt(w.now.rules, node)
                  && forall port :: port in ChainsIn(t) <==> D.RowsOn(w.now.chains, node, port) != {})
            && RowsOk(View(w))
  {
    hide Shape;
    RunsKeepMatched(es);
    var w := Run(START, es);
    LandedFrame(w.now, w.now, w.landing);
    assert Refined(View(w), node);
    if Quiet(w, node) {
      QuietBelow(w, node, |w.landing|);
      assert w.landing[..|w.landing|] == w.landing;
      forall port ensures port in ChainsAt(w.now.chains, node) <==> D.RowsOn(w.now.chains, node, port) != {} {
        if id :| id in D.RowsOn(w.now.chains, node, port) {
          assert w.now.chains[id].port in ChainsAt(w.now.chains, node);
        }
        if port in ChainsAt(w.now.chains, node) {
          var id :| id in w.now.chains && w.now.chains[id].node == node && w.now.chains[id].port == port;
          assert id in D.RowsOn(w.now.chains, node, port);
        }
      }
    }
  }

  /** Two states whose rows differ in one rule only, and whose agents serve their rows, agree on that rule. */
  lemma SameProjection(x: D.State, y: D.State, id: nat)
    requires Inv(x) && Inv(y) && x.agents == y.agents
    requires id in x.rules && id in y.rules && x.rules[id].node == y.rules[id].node
    requires x.rules - {id} == y.rules - {id} && x.AgentOf(x.rules[id].node).Up?
    ensures x.rules[id].port == y.rules[id].port && x.rules[id].remote == y.rules[id].remote
  {
    var node, pair := x.rules[id].node, (x.rules[id].port, x.rules[id].remote);
    assert Refined(x, node) && Refined(y, node);
    assert pair in RulesAt(x.rules, node);
    assert pair in RulesAt(y.rules, node);
    forall i | i in y.rules && i != id ensures i in x.rules && x.rules[i] == y.rules[i] {
      assert i in x.rules - {id} && (x.rules - {id})[i] == (y.rules - {id})[i];
    }
    var other :|
      other in y.rules && y.rules[other].node == node && (y.rules[other].port, y.rules[other].remote) == pair;
    assert other == id;
  }

  /** Two changes that disagree cannot both be followed: an agent that is up is let down by one of the two orders. */
  lemma OneOrderBreaks(s: D.State, a: Task, b: Task)
    requires Conflict(a, b) && a.id in s.rules && s.AgentOf(s.rules[a.id].node).Up?
    ensures !(Inv(Written(Written(s, a, 0), b, 0)) && Inv(Written(Written(s, b, 0), a, 0)))
  {
    hide Inv;
    var ab, ba := Written(Written(s, a, 0), b, 0), Written(Written(s, b, 0), a, 0);
    assert ab.rules - {a.id} == s.rules - {a.id} == ba.rules - {a.id};
    if Inv(ab) && Inv(ba) {
      SameProjection(ab, ba, a.id);
    }
  }
}
