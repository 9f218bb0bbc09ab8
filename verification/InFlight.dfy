/**
 The controller's actions in flight. An action reads its rows, calls the agent and writes its rows in separate
 steps, each of its reads at a moment of its own. Nothing is locked in between, and any number of actions, crashes
 and restarts may overlap.
 */
module InFlight {
  import opened Wrappers
  import opened PortTable
  import D = Deployment

  /**
   What an action has decided to do to one row. A task that calls goes to the agent first; one that does not
   has found the agent's listener to be none of its business.
   */
  datatype Task =
    | AddingRule(row: D.RuleRow)
    | DeletingRule(id: nat, node: int, port: int, calls: bool)
    | ChangingRule(id: nat, node: int, oldPort: int, port: int, remote: string, setsRemote: bool, protocol: Protocol,
                   name: Option<string>, chain: Option<int>, calls: bool)
    | AddingChain(chainRow: D.ChainRow, calls: bool)
    | DeletingChain(id: nat, node: int, port: int, calls: bool)
  {
    function Node(): int {
      match this
      case AddingRule(row) => row.node
      case AddingChain(row, _) => row.node
      case _ => node
    }

    predicate Calls() {
      AddingRule? || calls
    }
  }

  // ----- reading

  /** The states at the moments of an action's reads, in the order in which it makes them. */
  datatype Reads = Reads(first: D.State, second: D.State, third: D.State)

  /** All reads at one moment. */
  function AtOnce(s: D.State): Reads {
    Reads(s, s, s)
  }

  function PlanAddRule(s: D.State, r: D.AddRuleReq): seq<Task> {
    if r.node in s.nodes && s.nodes[r.node].registered then [AddingRule(r.Row())] else []
  }

  /** The rule, then its node. */
  function PlanDelRule(seen: Reads, id: nat): seq<Task> {
    var rules := seen.first.rules;
    if id !in rules then []
    else [DeletingRule(id, rules[id].node, rules[id].port, rules[id].node in seen.second.nodes)]
  }

  /** The rule, then its chain and the chain it is to move to. */
  function PlanModifyRule(seen: Reads, id: nat, r: D.ModifyRuleReq): seq<Task> {
    var rules, s := seen.first.rules, seen.second;
    if id !in rules || (D.MovesChain(s, rules[id], r) && r.chain !in s.chains) then []
    else
      var row := rules[id];
      var moves := D.MovesChain(s, row, r);
      [ChangingRule(id, row.node, row.port, D.NewPort(row, r), D.NewRemote(row, r), D.NewRemote(row, r) != row.remote,
                    if moves then s.chains[r.chain].protocol else row.protocol,
                    if r.name != "" then Some(r.name) else None, if moves then Some(r.chain) else None,
                    D.NeedsAgent(s, row, r))]
  }

  /** The bulk change of one rule: the agent is called even when the host stays. */
  function HostChange(row: D.RuleRow, id: nat, host: string): Task
    requires D.Rehosted(row.remote, host).Some?
  {
    ChangingRule(id, row.node, row.port, row.port, D.Rehosted(row.remote, host).value, host != "", row.protocol,
                 None, None, true)
  }

  /** The selected rules below `k`, up to the first whose address has no port to keep. */
  function PlanBelow(rules: map<nat, D.RuleRow>, ids: set<nat>, host: string, k: nat): (seq<Task>, bool) {
    if k == 0 then ([], true)
    else
      var (tasks, complete) := PlanBelow(rules, ids, host, k - 1);
      if !complete || k - 1 !in ids || k - 1 !in rules then (tasks, complete)
      else if D.Rehosted(rules[k - 1].remote, host).None? then (tasks, false)
      else (tasks + [HostChange(rules[k - 1], k - 1, host)], true)
  }

  /** The node, then whether the address is taken, then how many rows are on the port. */
  function PlanAddChain(seen: Reads, r: D.AddChainReq): seq<Task> {
    var nodes := seen.first.nodes;
    if r.node !in nodes || !nodes[r.node].registered then []
    else if r.preferIpv6 && nodes[r.node].ipv6.None? then []
    else
      var ip := D.ChainIp(nodes[r.node], r.preferIpv6);
      if D.Taken(seen.second.chains, r.node, r.port, ip) then []
      else
        [AddingChain(D.ChainRow(r.node, r.port, ip, if r.protocol.Some? then r.protocol.value else TCP),
                     D.RowsOn(seen.third.chains, r.node, r.port) == {})]
  }

  /** The row, then how many rows are on its port. A user who is no administrator may delete only the last. */
  function PlanDelChain(seen: Reads, id: nat, admin: bool): seq<Task> {
    if id !in seen.first.chains then []
    else
      var row := seen.first.chains[id];
      var last := |D.RowsOn(seen.second.chains, row.node, row.port)| == 1;
      if last || admin then [DeletingChain(id, row.node, row.port, last)] else []
  }

  datatype Request =
    | AddRule(rule: D.AddRuleReq)
    | DelRule(id: nat)
    | ModifyRule(id: nat, change: D.ModifyRuleReq)
    | ModifyRules(ids: set<nat>, host: string)
    | AddChain(chain: D.AddChainReq)
    | DelChain(id: nat, admin: bool)

  /** What a request will do, judged by the rows it reads; nothing when it is refused there. */
  function Plan(seen: Reads, r: Request): seq<Task> {
    match r
    case AddRule(rule) => PlanAddRule(seen.first, rule)
    case DelRule(id) => PlanDelRule(seen, id)
    case ModifyRule(id, change) => PlanModifyRule(seen, id, change)
    case ModifyRules(ids, host) => PlanBelow(seen.first.rules, ids, host, seen.first.nextRule).0
    case AddChain(chain) => PlanAddChain(seen, chain)
    case DelChain(id, admin) => PlanDelChain(seen, id, admin)
  }

  // ----- calling the agent

  /** What becomes of a call: it may fail on the way there, or on the way back when the agent has acted. */
  datatype Fate = NotDelivered | Answered | ReplyLost

  /** The agent's table after a task's call, and whether the agent is content. */
  function Handled(t: Table, task: Task, bindable: bool, udp: bool): (Table, bool) {
    match task
    case AddingRule(row) =>
      var added := RuleAdded(t, row.port, row.remote, row.protocol, bindable, udp);
      if added.Some? then (added.value, true) else (t, false)
    case AddingChain(row, _) =>
      var added := ChainAdded(t, row.port, bindable, udp);
      if added.Some? then (added.value, true) else (t, false)
    case ChangingRule(_, _, oldPort, port, remote, _, protocol, _, _, _) =>
      RuleMoved(t, oldPort, port, remote, protocol, bindable, udp)
    case _ => (PortDeleted(t, task.port), true)
  }

  /** The agents after the call, and whether the action goes on to its row: only a rule's deletion survives refusal. */
  function Called(s: D.State, task: Task, fate: Fate, bindable: bool): D.Outcome {
    if fate.NotDelivered? then D.Outcome(s, false)
    else if !s.AgentOf(task.Node()).Up? then D.Outcome(s, task.DeletingRule?)
    else
      var agent := s.AgentOf(task.Node());
      var (table, content) := Handled(agent.table, task, bindable, agent.udp);
      D.Outcome(s.WithTable(task.Node(), table), content && fate.Answered?)
  }

  // ----- writing the row

  function Changed(row: D.RuleRow, task: Task): D.RuleRow
    requires task.ChangingRule?
  {
    row.(name := if task.name.Some? then task.name.value else row.name,
         port := if task.port != task.oldPort then task.port else row.port,
         remote := if task.setsRemote then task.remote else row.remote,
         chain := if task.chain.Some? then task.chain.value else row.chain)
  }

  /** An update or a deletion of a row that is gone does nothing. */
  function WrittenRules(rules: map<nat, D.RuleRow>, task: Task, id: nat): map<nat, D.RuleRow> {
    match task
    case AddingRule(row) => rules[id := row]
    case DeletingRule(_, _, _, _) => rules - {task.id}
    case ChangingRule(_, _, _, _, _, _, _, _, _, _) =>
      if task.id in rules then rules[task.id := Changed(rules[task.id], task)] else rules
    case _ => rules
  }

  function WrittenChains(chains: map<nat, D.ChainRow>, task: Task, id: nat): map<nat, D.ChainRow> {
    match task
    case AddingChain(row, _) => chains[id := row]
    case DeletingChain(_, _, _, _) => chains - {task.id}
    case _ => chains
  }

  function Written(s: D.State, task: Task, id: nat): D.State {
    s.(rules := WrittenRules(s.rules, task, id), chains := WrittenChains(s.chains, task, id))
  }

  /** The id a new row will have; other tasks write to the id they carry. */
  function FreshId(s: D.State, task: Task): nat {
    if task.AddingRule? then s.nextRule else if task.AddingChain? then s.nextChain else 0
  }

  function Reserved(s: D.State, task: Task): D.State {
    if task.AddingRule? then s.(nextRule := s.nextRule + 1)
    else if task.AddingChain? then s.(nextChain := s.nextChain + 1)
    else s
  }

  // ----- the system

  /** A task whose call has succeeded and whose row is still to be written, and what its action does after it. */
  datatype Landing = Landing(task: Task, id: nat, rest: seq<Task>)

  /** Actions that have read and not called, in no particular order, and tasks in the order of their calls. */
  datatype World = World(now: D.State, waiting: seq<seq<Task>>, landing: seq<Landing>)

  const START := World(D.START, [], [])

  datatype Event =
    | Begin(request: Request, seen: Reads)
    | Call(k: nat, fate: Fate, bindable: bool)
    | WriteUncalled(k: nat)
    | Write(k: nat)
    | AddNode(node: int)
    | Register(node: int, from: D.RegisterReq, peer: string, rulesRead: D.State, chainsRead: D.State)
    | Init(node: int, busy: set<int>, udp: bool)
    | Crash(node: int)

  function Without<T>(s: seq<T>, k: nat): seq<T>
    requires k < |s|
  {
    s[..k] + s[k + 1..]
  }

  /** The rest of an action, if there is any. */
  function Queue(rest: seq<Task>): seq<seq<Task>> {
    if rest == [] then [] else [rest]
  }

  /**
   What can be said of an earlier state from here: its rows have ids that were given out, and those that are still
   there are on the same node and, if chains, unchanged; rows still to be inserted are not among them.
   */
  predicate Past(w: World, s: D.State) {
    && s.nextRule <= w.now.nextRule && s.nextChain <= w.now.nextChain
    && (forall id | id in s.rules ::
          id < s.nextRule && (id in w.now.rules ==> w.now.rules[id].node == s.rules[id].node))
    && (forall id | id in s.chains :: id < s.nextChain && (id in w.now.chains ==> w.now.chains[id] == s.chains[id]))
    && (forall l | l in w.landing ::
          && (l.task.AddingRule? ==> l.id !in s.rules)
          && (l.task.AddingChain? ==> l.id !in s.chains))
  }

  predicate Enabled(w: World, e: Event) {
    match e
    case Begin(_, seen) => Past(w, seen.first) && Past(w, seen.second) && Past(w, seen.third)
    case Register(_, _, _, rulesRead, chainsRead) => Past(w, rulesRead) && Past(w, chainsRead)
    case Call(k, _, _) => k < |w.waiting| && w.waiting[k] != [] && w.waiting[k][0].Calls()
    case WriteUncalled(k) => k < |w.waiting| && w.waiting[k] != [] && !w.waiting[k][0].Calls()
    case Write(k) => k < |w.landing|
    case _ => true
  }

  function Step(w: World, e: Event): World
    requires Enabled(w, e)
  {
    match e
    case Begin(request, seen) => w.(waiting := w.waiting + Queue(Plan(seen, request)))
    case Call(k, fate, bindable) =>
      var task, rest := w.waiting[k][0], w.waiting[k][1..];
      var called := Called(w.now, task, fate, bindable);
      var others := Without(w.waiting, k);
      if called.ok then
        World(Reserved(called.state, task), others, w.landing + [Landing(task, FreshId(w.now, task), rest)])
      else World(called.state, others, w.landing)
    case WriteUncalled(k) =>
      var task, rest := w.waiting[k][0], w.waiting[k][1..];
      World(Written(Reserved(w.now, task), task, FreshId(w.now, task)), Without(w.waiting, k) + Queue(rest), w.landing)
    case Write(k) =>
      var l := w.landing[k];
      World(Written(w.now, l.task, l.id), w.waiting + Queue(l.rest), Without(w.landing, k))
    case AddNode(node) => w.(now := D.AddNode(w.now, node).state)
    case Register(node, r, peer, rulesRead, chainsRead) =>
      w.(now := D.RegisterNode(w.now, node, r, peer, rulesRead, chainsRead).state)
    case Init(node, busy, udp) => w.(now := D.InitAgent(w.now, node, busy, udp).state)
    case Crash(node) => w.(now := D.Crash(w.now, node).state)
  }

  predicate IsRun(w: World, es: seq<Event>)
    decreases |es|, 0
  {
    es != [] ==> IsRun(w, es[..|es| - 1]) && Enabled(Run(w, es[..|es| - 1]), es[|es| - 1])
  }

  function Run(w: World, es: seq<Event>): World
    requires IsRun(w, es)
    decreases |es|, 1
  {
    if es == [] then w else Step(Run(w, es[..|es| - 1]), es[|es| - 1])
  }

  // ----- actions nobody disturbs

  /** One task from its call to its row with nothing in between. */
  function Performed(s: D.State, task: Task, lost: bool, bindable: bool): D.Outcome {
    var called := if task.Calls() then Called(s, task, if lost then NotDelivered else Answered, bindable)
                  else D.Outcome(s, true);
    if called.ok then D.Outcome(Written(Reserved(called.state, task), task, FreshId(s, task)), true) else called
  }

  /** Tasks one after the other, up to the first that fails. */
  function PerformedAll(s: D.State, tasks: seq<Task>, lost: set<nat>, unbindable: set<nat>): D.Outcome
    requires forall task | task in tasks :: task.ChangingRule?
  {
    if tasks == [] then D.Outcome(s, true)
    else
      var before, last := PerformedAll(s, tasks[..|tasks| - 1], lost, unbindable), tasks[|tasks| - 1];
      if before.ok then Performed(before.state, last, last.id in lost, last.id !in unbindable) else before
  }

  lemma Then(w: World, es: seq<Event>, t: World, e: Event)
    requires IsRun(w, es) && Run(w, es) == t && Enabled(t, e)
    ensures IsRun(w, es + [e]) && Run(w, es + [e]) == Step(t, e)
  {
    assert (es + [e])[..|es|] == es;
  }

  lemma AtFirst(w: World)
    ensures IsRun(w, []) && Run(w, []) == w
  {
  }

  /** A task performed alone is its steps, one after the other. */
  lemma PerformedIsARun(s: D.State, task: Task, rest: seq<Task>, lost: bool, bindable: bool) returns (es: seq<Event>)
    ensures var w, done := World(s, [[task] + rest], []), Performed(s, task, lost, bindable);
            IsRun(w, es) && Run(w, es) == World(done.state, if done.ok then Queue(rest) else [], [])
  {
    hide IsRun, Run, Called, Written;
    var w := World(s, [[task] + rest], []);
    AtFirst(w);
    assert Without(w.waiting, 0) == [] && ([task] + rest)[1..] == rest && [] + Queue(rest) == Queue(rest);
    if task.Calls() {
      var call := Call(0, if lost then NotDelivered else Answered, bindable);
      Then(w, [], w, call);
      es := [] + [call];
      var called := Step(w, call);
      if Called(s, task, call.fate, bindable).ok {
        assert [] + [Landing(task, FreshId(s, task), rest)] == called.landing;
        assert Without(called.landing, 0) == [];
        Then(w, es, called, Write(0));
        es := es + [Write(0)];
      }
    } else {
      Then(w, [], w, WriteUncalled(0));
      es := [] + [WriteUncalled(0)];
    }
  }

  /** What an action comes to when it is left alone. */
  function Alone(s: D.State, r: Request, lost: bool, bindable: bool): D.Outcome {
    var plan := Plan(AtOnce(s), r);
    if plan == [] then D.Outcome(s, false) else Performed(s, plan[0], lost, bindable)
  }

  lemma {:induction false} PlanBelowChanges(rules: map<nat, D.RuleRow>, ids: set<nat>, host: string, k: nat)
    ensures forall task | task in PlanBelow(rules, ids, host, k).0 :: task.ChangingRule? && task.id < k
  {
    if k > 0 {
      PlanBelowChanges(rules, ids, host, k - 1);
    }
  }

  /** The bulk change left alone: the rules below `k`, failing where a call fails or an address has no port to keep. */
  function BulkAlone(s: D.State, ids: set<nat>, host: string, lost: set<nat>, unbindable: set<nat>, k: nat): D.Outcome {
    PlanBelowChanges(s.rules, ids, host, k);
    var (tasks, complete) := PlanBelow(s.rules, ids, host, k);
    var done := PerformedAll(s, tasks, lost, unbindable);
    D.Outcome(done.state, done.ok && complete)
  }

  /** One more rule of the bulk change. */
  lemma BulkOneMore(s: D.State, ids: set<nat>, host: string, lost: set<nat>, unbindable: set<nat>, id: nat)
    ensures var before := BulkAlone(s, ids, host, lost, unbindable, id);
            BulkAlone(s, ids, host, lost, unbindable, id + 1) ==
            if !before.ok || id !in ids || id !in s.rules then before
            else if D.Rehosted(s.rules[id].remote, host).None? then D.Outcome(before.state, false)
            else Performed(before.state, HostChange(s.rules[id], id, host), id in lost, id !in unbindable)
  {
    hide Performed, D.Rehosted;
    PlanBelowChanges(s.rules, ids, host, id);
    PlanBelowChanges(s.rules, ids, host, id + 1);
    var tasks, more := PlanBelow(s.rules, ids, host, id).0, PlanBelow(s.rules, ids, host, id + 1).0;
    if more != tasks {
      assert more[..|more| - 1] == tasks;
    }
  }

  /** Once it has failed, the rest of the selection is left alone. */
  lemma {:induction false} BulkStuck(
      s: D.State, ids: set<nat>, host: string, lost: set<nat>, unbindable: set<nat>, k: nat, n: nat)
    requires k <= n && !BulkAlone(s, ids, host, lost, unbindable, k).ok
    ensures BulkAlone(s, ids, host, lost, unbindable, n) == BulkAlone(s, ids, host, lost, unbindable, k)
    decreases n
  {
    hide BulkAlone, Performed;
    if k < n {
      BulkStuck(s, ids, host, lost, unbindable, k, n - 1);
      BulkOneMore(s, ids, host, lost, unbindable, n - 1);
    }
  }

  // ----- left alone, an action is a run

  lemma {:induction false} RunOn(w: World, es: seq<Event>, fs: seq<Event>)
    requires IsRun(w, es) && IsRun(Run(w, es), fs)
    ensures IsRun(w, es + fs) && Run(w, es + fs) == Run(Run(w, es), fs)
    decreases |fs|
  {
    hide Step, Enabled;
    if fs == [] {
      assert es + fs == es;
    } else {
      var n := |fs| - 1;
      RunOn(w, es, fs[..n]);
      assert es + fs == (es + fs[..n]) + [fs[n]];
      Then(w, es + fs[..n], Run(Run(w, es), fs[..n]), fs[n]);
    }
  }

  /** A world in which nothing is in flight. */
  function Quietly(s: D.State): World {
    World(s, [], [])
  }

  /** The tasks of one action, each once the one before has been written, up to the first that fails. */
  lemma {:induction false} TasksAreARun(s: D.State, tasks: seq<Task>, lost: set<nat>, unbindable: set<nat>, k: nat)
    returns (es: seq<Event>)
    requires (forall task | task in tasks :: task.ChangingRule?) && k <= |tasks|
    ensures var done := PerformedAll(s, tasks[..k], lost, unbindable);
            && IsRun(World(s, Queue(tasks), []), es)
            && Run(World(s, Queue(tasks), []), es) == World(done.state, if done.ok then Queue(tasks[k..]) else [], [])
  {
    hide IsRun, Run, Performed;
    var w := World(s, Queue(tasks), []);
    if k == 0 {
      AtFirst(w);
      es := [];
      assert tasks[0..] == tasks;
    } else {
      es := TasksAreARun(s, tasks, lost, unbindable, k - 1);
      var before, task := PerformedAll(s, tasks[..k - 1], lost, unbindable), tasks[k - 1];
      assert tasks[..k][..k - 1] == tasks[..k - 1];
      if before.ok {
        assert tasks[k - 1..] == [task] + tasks[k..];
        var fs := PerformedIsARun(before.state, task, tasks[k..], task.id in lost, task.id !in unbindable);
        RunOn(w, es, fs);
        es := es + fs;
      }
    }
  }

  /** The bulk change begins, and its tasks follow. */
  lemma BulkIsARun(s: D.State, ids: set<nat>, host: string, lost: set<nat>, unbindable: set<nat>)
    returns (es: seq<Event>)
    requires Past(Quietly(s), s)
    ensures IsRun(Quietly(s), es)
    ensures Run(Quietly(s), es) == Quietly(BulkAlone(s, ids, host, lost, unbindable, s.nextRule).state)
  {
    hide IsRun, Run, Performed, PerformedAll, Past;
    var begin := Begin(ModifyRules(ids, host), AtOnce(s));
    var tasks := PlanBelow(s.rules, ids, host, s.nextRule).0;
    PlanBelowChanges(s.rules, ids, host, s.nextRule);
    AtFirst(Quietly(s));
    Then(Quietly(s), [], Quietly(s), begin);
    assert [] + Queue(tasks) == Queue(tasks);
    var fs := TasksAreARun(s, tasks, lost, unbindable, |tasks|);
    assert tasks[..|tasks|] == tasks && tasks[|tasks|..] == [];
    RunOn(Quietly(s), [] + [begin], fs);
    es := [] + [begin] + fs;
  }

  /** So is any other action, with its one task. */
  lemma AloneIsARun(s: D.State, r: Request, lost: bool, bindable: bool) returns (es: seq<Event>)
    requires Past(Quietly(s), s) && !r.ModifyRules?
    ensures IsRun(Quietly(s), es) && Run(Quietly(s), es) == Quietly(Alone(s, r, lost, bindable).state)
  {
    hide IsRun, Run, Performed, Past;
    var begin, plan := Begin(r, AtOnce(s)), Plan(AtOnce(s), r);
    AtFirst(Quietly(s));
    Then(Quietly(s), [], Quietly(s), begin);
    es := [] + [begin];
    assert [] + Queue(plan) == Queue(plan);
    if plan != [] {
      assert plan == [plan[0]] + [];
      var fs := PerformedIsARun(s, plan[0], [], lost, bindable);
      RunOn(Quietly(s), es, fs);
      es := es + fs;
    }
  }
}
