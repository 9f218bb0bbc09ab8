/**
 Each way an agent can part from its rows does happen. Every run here ends with nothing in flight, and with an
 agent that is up, or about to be, for rows that are not there, or without a listener for rows that are.
 */
module Mishaps {
  import opened Wrappers
  import opened PortTable
  import opened Refinement
  import opened InFlight
  import opened Overlap
  import D = Deployment

  ghost predicate Parted(es: seq<Event>) {
    && IsRun(START, es)
    && Run(START, es).waiting == [] && Run(START, es).landing == []
    && !Inv(Run(START, es).now)
  }

  const WEB := D.RuleRow("web", 1, 80, "198.51.100.7:80", 0, TCP)

  const FROM := D.RegisterReq("192.0.2.1", "2001:db8::1", false, 0, "")

  /** What an agent that serves the rule has open. */
  const SERVING: Table :=
    map[Tcp(80) := Entry(Service, "198.51.100.7:80"), Udp(80) := Entry(Service, "198.51.100.7:80")]

  function Node(agent: D.Agent, rules: map<nat, D.RuleRow>, nextRule: nat): D.State {
    D.State(rules, map[], map[1 := D.Addressed(FROM, "")], map[1 := agent], nextRule, 0)
  }

  /** One more step, with nothing hidden but the run so far. */
  lemma Next(es: seq<Event>, w: World, e: Event, next: World) returns (more: seq<Event>)
    requires IsRun(START, es) && Run(START, es) == w && Enabled(w, e) && Step(w, e) == next
    ensures IsRun(START, more) && Run(START, more) == next
  {
    Then(START, es, w, e);
    more := es + [e];
  }

  /** An action that does one thing reads its rows. */
  lemma Reading(es: seq<Event>, s: D.State, waiting: seq<seq<Task>>, r: Request, task: Task) returns (more: seq<Event>)
    requires IsRun(START, es) && Run(START, es) == World(s, waiting, []) && Plan(AtOnce(s), r) == [task]
    requires (forall id | id in s.rules :: id < s.nextRule) && (forall id | id in s.chains :: id < s.nextChain)
    ensures IsRun(START, more) && Run(START, more) == World(s, waiting + [[task]], [])
  {
    hide Plan, IsRun, Run;
    more := Next(es, World(s, waiting, []), Begin(r, AtOnce(s)), World(s, waiting + [[task]], []));
  }

  /** The first action's only task is called and goes on to its row. */
  lemma Calling(es: seq<Event>, s: D.State, task: Task, others: seq<seq<Task>>, ls: seq<Landing>, next: D.State)
    returns (more: seq<Event>)
    requires IsRun(START, es) && Run(START, es) == World(s, [[task]] + others, ls) && task.Calls()
    requires var called := Called(s, task, Answered, true); called.ok && next == Reserved(called.state, task)
    ensures IsRun(START, more)
    ensures Run(START, more) == World(next, others, ls + [Landing(task, FreshId(s, task), [])])
  {
    hide Called, IsRun, Run;
    var w := World(s, [[task]] + others, ls);
    assert Without(w.waiting, 0) == others && [task][1..] == [];
    more := Next(es, w, Call(0, Answered, true), World(next, others, ls + [Landing(task, FreshId(s, task), [])]));
  }

  /** The only row waiting to be written lands. */
  lemma Lands(es: seq<Event>, s: D.State, task: Task, id: nat, others: seq<seq<Task>>, next: D.State)
    returns (more: seq<Event>)
    requires IsRun(START, es) && Run(START, es) == World(s, others, [Landing(task, id, [])])
    requires next == Written(s, task, id)
    ensures IsRun(START, more) && Run(START, more) == World(next, others, [])
  {
    hide Written, IsRun, Run;
    var w := World(s, others, [Landing(task, id, [])]);
    assert Without(w.landing, 0) == [] && others + Queue([]) == others;
    more := Next(es, w, Write(0), World(next, others, []));
  }

  /** A node whose agent is up, with no rules. */
  lemma Ready() returns (es: seq<Event>)
    ensures IsRun(START, es) && Run(START, es) == World(Node(D.Up(map[], true), map[], 0), [], [])
  {
    hide IsRun, Run;
    AtFirst(START);
    var s1 := D.State(map[], map[], map[1 := D.NodeRow(false, "", "", None, "", 0)], map[], 0, 0);
    es := Next([], START, AddNode(1), World(s1, [], []));
    es := Next(es, World(s1, [], []), Register(1, FROM, "", s1, s1),
               World(Node(D.Starting([], []), map[], 0), [], []));
    es := Next(es, World(Node(D.Starting([], []), map[], 0), [], []), Init(1, {}, true),
               World(Node(D.Up(map[], true), map[], 0), [], []));
  }

  const ADD := D.AddRuleReq("web", 1, 80, "198.51.100.7:80", 0, None)

  /** The agent has opened the rule's port, and the row is still to be inserted. */
  lemma Added() returns (es: seq<Event>)
    ensures IsRun(START, es)
    ensures Run(START, es) == World(Node(D.Up(SERVING, true), map[], 1), [], [Landing(AddingRule(WEB), 0, [])])
  {
    hide IsRun, Run;
    es := Ready();
    var s := Node(D.Up(map[], true), map[], 0);
    es := Reading(es, s, [], AddRule(ADD), AddingRule(WEB));
    assert [] + [[AddingRule(WEB)]] == [[AddingRule(WEB)]];
    assert [[AddingRule(WEB)]] + [] == [[AddingRule(WEB)]];
    es := Calling(es, s, AddingRule(WEB), [], [], Node(D.Up(SERVING, true), map[], 1));
  }

  lemma Served() returns (es: seq<Event>)
    ensures IsRun(START, es) && Run(START, es) == World(Node(D.Up(SERVING, true), map[0 := WEB], 1), [], [])
  {
    hide IsRun, Run;
    es := Added();
    es := Lands(es, Node(D.Up(SERVING, true), map[], 1), AddingRule(WEB), 0, [],
                Node(D.Up(SERVING, true), map[0 := WEB], 1));
  }

  /** A listener without a row. */
  lemma Unlisted(s: D.State)
    requires s.AgentOf(1) == D.Up(SERVING, true) && s.rules == map[]
    ensures !Inv(s)
  {
    assert Tcp(80) in SERVING && SERVING[Tcp(80)].kind.Service?;
    assert (80, "198.51.100.7:80") in RulesIn(SERVING);
    assert !Refined(s, 1);
  }

  /** A row without a listener. */
  lemma Unserved(s: D.State, t: Table)
    requires s.AgentOf(1) == D.Up(t, true) && 0 in s.rules && s.rules[0] == WEB && Tcp(80) !in t
    ensures !Inv(s)
  {
    assert (80, "198.51.100.7:80") in RulesAt(s.rules, 1);
    assert !Refined(s, 1);
  }

  /** The agent opens the port of a new rule and the reply is lost: the rule has a listener and no row. */
  lemma ReplyToAdditionLost() returns (es: seq<Event>)
    ensures Parted(es)
  {
    hide IsRun, Run;
    es := Ready();
    var s := Node(D.Up(map[], true), map[], 0);
    es := Reading(es, s, [], AddRule(ADD), AddingRule(WEB));
    assert [] + [[AddingRule(WEB)]] == [[AddingRule(WEB)]];
    var after := Node(D.Up(SERVING, true), map[], 0);
    es := Next(es, World(s, [[AddingRule(WEB)]], []), Call(0, ReplyLost, true), World(after, [], []));
    Unlisted(after);
  }

  /** The agent restarts between opening a new rule's port and the insertion of its row. */
  lemma RestartDuringAddition() returns (es: seq<Event>)
    ensures Parted(es)
  {
    hide IsRun, Run;
    es := Added();
    var landing := [Landing(AddingRule(WEB), 0, [])];
    es := Next(es, World(Node(D.Up(SERVING, true), map[], 1), [], landing), Crash(1),
               World(Node(D.Down, map[], 1), [], landing));
    assert D.SnapRules(map[], 1, 1) == [];
    var down := Node(D.Down, map[], 1);
    es := Next(es, World(down, [], landing), Register(1, FROM, "", down, down),
               World(Node(D.Starting([], []), map[], 1), [], landing));
    es := Next(es, World(Node(D.Starting([], []), map[], 1), [], landing), Init(1, {}, true),
               World(Node(D.Up(map[], true), map[], 1), [], landing));
    var after := Node(D.Up(map[], true), map[0 := WEB], 1);
    es := Lands(es, Node(D.Up(map[], true), map[], 1), AddingRule(WEB), 0, [], after);
    Unserved(after, map[]);
  }

  /** A rule is deleted while its agent, which has been told of it, is starting. */
  lemma DeletionUnderStart() returns (es: seq<Event>)
    ensures Parted(es)
  {
    hide IsRun, Run;
    es := Served();
    var rules := map[0 := WEB];
    var snapshot := [RuleVO(80, "198.51.100.7:80", TCP)];
    es := Next(es, World(Node(D.Up(SERVING, true), rules, 1), [], []), Crash(1), World(Node(D.Down, rules, 1), [], []));
    assert D.SnapRules(rules, 1, 1) == D.SnapRules(rules, 1, 0) + snapshot == snapshot;
    var down := Node(D.Down, rules, 1);
    es := Next(es, World(down, [], []), Register(1, FROM, "", down, down),
               World(Node(D.Starting([], snapshot), rules, 1), [], []));
    var task := DeletingRule(0, 1, 80, true);
    es := Reading(es, Node(D.Starting([], snapshot), rules, 1), [], DelRule(0), task);
    assert [] + [[task]] == [[task]];
    assert [[task]] + [] == [[task]];
    es := Calling(es, Node(D.Starting([], snapshot), rules, 1), task, [], [],
                  Node(D.Starting([], snapshot), rules, 1));
    var after := Node(D.Starting([], snapshot), map[], 1);
    es := Lands(es, Node(D.Starting([], snapshot), rules, 1), task, 0, [], after);
    assert (snapshot[0].port, snapshot[0].remote) in RulePairs(snapshot);
    assert !Refined(after, 1);
  }

  /** A rule is moved to a port that another process holds: the agent has closed the old one by then. */
  lemma MoveToBusyPort() returns (es: seq<Event>)
    ensures Parted(es)
  {
    hide IsRun, Run;
    es := Served();
    var s := Node(D.Up(SERVING, true), map[0 := WEB], 1);
    var task := ChangingRule(0, 1, 80, 81, "198.51.100.7:80", false, TCP, None, None, true);
    es := Reading(es, s, [], ModifyRule(0, D.ModifyRuleReq("", 81, "", 0)), task);
    assert [] + [[task]] == [[task]];
    var after := Node(D.Up(map[], true), map[0 := WEB], 1);
    es := Next(es, World(s, [[task]], []), Call(0, Answered, false), World(after, [], []));
    Unserved(after, map[]);
  }

  // ----- two changes of one rule

  const A := "203.0.113.1:80"
  const B := "203.0.113.2:80"

  function To(remote: string): Task {
    ChangingRule(0, 1, 80, 80, remote, true, TCP, None, None, true)
  }

  const MOVE := ChangingRule(0, 1, 80, 81, "198.51.100.7:80", false, TCP, None, None, true)

  function Open(port: int, remote: string): Table {
    map[Tcp(port) := Entry(Service, remote), Udp(port) := Entry(Service, remote)]
  }

  /** Both changes have read the rule on port 80. */
  lemma BothRead(first: D.ModifyRuleReq, a: Task, b: Task) returns (es: seq<Event>)
    requires Plan(AtOnce(Node(D.Up(SERVING, true), map[0 := WEB], 1)), ModifyRule(0, first)) == [a]
    requires b == To(B)
    ensures IsRun(START, es) && Run(START, es) == World(Node(D.Up(SERVING, true), map[0 := WEB], 1), [[a]] + [[b]], [])
  {
    hide IsRun, Run;
    es := Served();
    var s := Node(D.Up(SERVING, true), map[0 := WEB], 1);
    es := Reading(es, s, [], ModifyRule(0, first), a);
    assert [] + [[a]] == [[a]];
    es := Reading(es, s, [[a]], ModifyRule(0, D.ModifyRuleReq("", 0, B, 0)), b);
  }

  /** The second change closes and opens a port that the first has taken the rule off. */
  lemma ChangesOverlap() returns (es: seq<Event>)
    ensures Parted(es)
  {
    hide IsRun, Run;
    var s := Node(D.Up(SERVING, true), map[0 := WEB], 1);
    es := BothRead(D.ModifyRuleReq("", 81, "", 0), MOVE, To(B));
    var moved := Node(D.Up(Open(81, "198.51.100.7:80"), true), map[0 := WEB], 1);
    es := Calling(es, s, MOVE, [[To(B)]], [], moved);
    var at81 := map[0 := WEB.(port := 81)];
    es := Lands(es, moved, MOVE, 0, [[To(B)]], moved.(rules := at81));
    es := SecondChange(es, at81);
  }

  /** From where the first change is done: the agent ends up with two ports open for the one rule. */
  lemma SecondChange(es: seq<Event>, at81: map<nat, D.RuleRow>) returns (more: seq<Event>)
    requires at81 == map[0 := WEB.(port := 81)] && IsRun(START, es)
    requires Run(START, es) == World(Node(D.Up(Open(81, "198.51.100.7:80"), true), at81, 1), [[To(B)]], [])
    ensures Parted(more)
  {
    hide IsRun, Run, Called, Inv;
    var s := Node(D.Up(Open(81, "198.51.100.7:80"), true), at81, 1);
    var both := Both();
    assert [[To(B)]] + [] == [[To(B)]];
    BothOpen(s);
    more := Calling(es, s, To(B), [], [], Node(D.Up(both, true), at81, 1));
    var after := Node(D.Up(both, true), map[0 := WEB.(port := 81, remote := B)], 1);
    more := Lands(more, Node(D.Up(both, true), at81, 1), To(B), 0, [], after);
    BothServed(after);
  }

  function Both(): Table {
    Open(81, "198.51.100.7:80")[Tcp(80) := Entry(Service, B)][Udp(80) := Entry(Service, B)]
  }

  lemma BothOpen(s: D.State)
    requires s.AgentOf(1) == D.Up(Open(81, "198.51.100.7:80"), true)
    ensures Called(s, To(B), Answered, true) == D.Outcome(s.WithTable(1, Both()), true)
  {
  }

  lemma BothServed(s: D.State)
    requires s.AgentOf(1) == D.Up(Both(), true) && s.rules == map[0 := WEB.(port := 81, remote := B)]
    ensures !Inv(s)
  {
    assert Tcp(80) in Both() && (80, B) in RulesIn(Both());
    assert !Refined(s, 1);
  }

  /** Two changes of address have called, the one to `B` last, and neither has written its row. */
  lemma BothCalled() returns (es: seq<Event>)
    ensures IsRun(START, es)
    ensures Run(START, es) ==
            World(Node(D.Up(Open(80, B), true), map[0 := WEB], 1), [], [Landing(To(A), 0, []), Landing(To(B), 0, [])])
  {
    hide IsRun, Run, Called;
    var s := Node(D.Up(SERVING, true), map[0 := WEB], 1);
    es := BothRead(D.ModifyRuleReq("", 0, A, 0), To(A), To(B));
    var atA, atB := Node(D.Up(Open(80, A), true), map[0 := WEB], 1), Node(D.Up(Open(80, B), true), map[0 := WEB], 1);
    var a, b := Landing(To(A), 0, []), Landing(To(B), 0, []);
    Readdressed(SERVING, A);
    es := Calling(es, s, To(A), [[To(B)]], [], atA);
    assert [] + [a] == [a] && [[To(B)]] + [] == [[To(B)]] && [a] + [b] == [a, b];
    Readdressed(Open(80, A), B);
    es := Calling(es, atA, To(B), [], [a], atB);
  }

  lemma Readdressed(t: Table, remote: string)
    requires t.Keys == {Tcp(80), Udp(80)}
    ensures Called(Node(D.Up(t, true), map[0 := WEB], 1), To(remote), Answered, true) ==
            D.Outcome(Node(D.Up(Open(80, remote), true), map[0 := WEB], 1), true)
  {
    assert PortDeleted(t, 80) == map[];
  }

  /** The rows are written in the other order, so the rule's row says `A` where its agent serves `B`. */
  lemma WritesOvertake() returns (es: seq<Event>)
    ensures Parted(es)
  {
    hide IsRun, Run;
    es := BothCalled();
    var atB := Node(D.Up(Open(80, B), true), map[0 := WEB], 1);
    var a, b := Landing(To(A), 0, []), Landing(To(B), 0, []);
    assert Without([a, b], 1) == [a];
    es := Next(es, World(atB, [], [a, b]), Write(1), World(atB.(rules := map[0 := WEB.(remote := B)]), [], [a]));
    var after := atB.(rules := map[0 := WEB.(remote := A)]);
    es := Lands(es, atB.(rules := map[0 := WEB.(remote := B)]), To(A), 0, [], after);
    assert Tcp(80) in Open(80, B) && (80, B) in RulesIn(Open(80, B));
    assert !Refined(after, 1);
  }

  // ----- two rows, one listener

  function ChainNode(t: Table, chains: map<nat, D.ChainRow>): D.State {
    D.State(map[], chains, map[1 := D.Addressed(FROM, "")], map[1 := D.Up(t, true)], 0, 2)
  }

  const LISTENING: Table := map[Tcp(90) := Entry(Chain, ""), Udp(90) := Entry(Chain, "")]

  const V4 := D.ChainRow(1, 90, "192.0.2.1", TCP)
  const V6 := D.ChainRow(1, 90, "2001:db8::1", TCP)

  /** A port with an IPv4 row and an IPv6 row. */
  lemma TwoRows() returns (es: seq<Event>)
    ensures IsRun(START, es) && Run(START, es) == World(ChainNode(LISTENING, map[0 := V4, 1 := V6]), [], [])
  {
    hide IsRun, Run;
    es := Ready();
    var s := Node(D.Up(map[], true), map[], 0);
    var first, second := AddingChain(V4, true), AddingChain(V6, false);
    es := Reading(es, s, [], AddChain(D.AddChainReq(1, 90, false, None)), first);
    assert [] + [[first]] == [[first]] && [] + [[second]] == [[second]];
    assert [[first]] + [] == [[first]];
    es := Calling(es, s, first, [], [], ChainNode(LISTENING, map[]).(nextChain := 1));
    var one := ChainNode(LISTENING, map[0 := V4]).(nextChain := 1);
    es := Lands(es, ChainNode(LISTENING, map[]).(nextChain := 1), first, 0, [], one);
    assert 0 in D.RowsOn(one.chains, 1, 90);
    es := Reading(es, one, [], AddChain(D.AddChainReq(1, 90, true, None)), second);
    es := Uncalled(es, one, second, [], ChainNode(LISTENING, map[0 := V4, 1 := V6]));
  }

  lemma Uncalled(es: seq<Event>, s: D.State, task: Task, others: seq<seq<Task>>, next: D.State)
    returns (more: seq<Event>)
    requires IsRun(START, es) && Run(START, es) == World(s, [[task]] + others, []) && !task.Calls()
    requires next == Written(Reserved(s, task), task, FreshId(s, task))
    ensures IsRun(START, more) && Run(START, more) == World(next, others, [])
  {
    hide Written, IsRun, Run;
    var w := World(s, [[task]] + others, []);
    assert Without(w.waiting, 0) == others && [task][1..] == [] && others + Queue([]) == others;
    more := Next(es, w, WriteUncalled(0), World(next, others, []));
  }

  /** Both rows are deleted at once: each deletion counts two and leaves the listener to the other. */
  lemma TwoDeletions() returns (es: seq<Event>)
    ensures Parted(es)
  {
    hide IsRun, Run;
    es := TwoRows();
    var s := ChainNode(LISTENING, map[0 := V4, 1 := V6]);
    var first, second := DeletingChain(0, 1, 90, false), DeletingChain(1, 1, 90, false);
    assert D.RowsOn(s.chains, 1, 90) == {0, 1};
    es := Reading(es, s, [], DelChain(0, true), first);
    assert [] + [[first]] == [[first]];
    es := Reading(es, s, [[first]], DelChain(1, true), second);
    es := Uncalled(es, s, first, [[second]], ChainNode(LISTENING, map[1 := V6]));
    assert [[second]] + [] == [[second]];
    es := Uncalled(es, ChainNode(LISTENING, map[1 := V6]), second, [], ChainNode(LISTENING, map[]));
    assert Tcp(90) in LISTENING && 90 in ChainsIn(LISTENING);
    assert !Refined(ChainNode(LISTENING, map[]), 1);
  }
}
