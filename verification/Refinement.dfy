/**
 The match between agents and rows: while an agent is up, its port table is the projection of its rows, which is
 rule ports with their remote addresses, and chain ports. How row changes move the projections, and how agents come
 and go without disturbing the match.
 */
module Refinement {
  import opened Wrappers
  import opened PortTable
  import opened Deployment

  // ----- projections of the tables

  function RulesAt(rules: map<nat, RuleRow>, node: int): set<(int, string)> {
    set id | id in rules && rules[id].node == node :: (rules[id].port, rules[id].remote)
  }

  function ChainsAt(chains: map<nat, ChainRow>, node: int): set<int> {
    set id | id in chains && chains[id].node == node :: chains[id].port
  }

  /** What the rows alone satisfy: no two rules of a node share a port, and none has a chain's. */
  predicate RowsOk(s: State) {
    && (forall id | id in s.rules :: id < s.nextRule)
    && (forall id | id in s.chains :: id < s.nextChain)
    && RulePortsDistinct(s.rules)
    && Apart(s.rules, s.chains)
    && TriplesDistinct(s.chains)
  }

  predicate RulePortsDistinct(rules: map<nat, RuleRow>) {
    forall i, j | i in rules && j in rules && i != j && rules[i].node == rules[j].node :: rules[i].port != rules[j].port
  }

  predicate Apart(rules: map<nat, RuleRow>, chains: map<nat, ChainRow>) {
    forall i, j | i in rules && j in chains && rules[i].node == chains[j].node :: rules[i].port != chains[j].port
  }

  predicate TriplesDistinct(chains: map<nat, ChainRow>) {
    forall i, j | i in chains && j in chains && i != j ::
      !(chains[i].node == chains[j].node && chains[i].port == chains[j].port && chains[i].ip == chains[j].ip)
  }

  /** An agent that is up serves exactly these rules and chains; one that is starting is about to. */
  predicate Serves(a: Agent, rules: set<(int, string)>, chains: set<int>) {
    match a
    case Down => true
    case Starting(cs, rs) => DistinctPorts(rs) && RulePairs(rs) == rules && ChainPorts(cs) == chains
    case Up(t, _) => Paired(t) && RulesIn(t) == rules && ChainsIn(t) == chains
  }

  predicate Refined(s: State, node: int) {
    Serves(s.AgentOf(node), RulesAt(s.rules, node), ChainsAt(s.chains, node))
  }

  /** Only nodes that exist have agents. */
  predicate Registered(s: State) {
    forall node | node in s.agents && !s.agents[node].Down? :: node in s.nodes
  }

  predicate Inv(s: State) {
    RowsOk(s) && Registered(s) && forall node | node in s.agents :: Refined(s, node)
  }

  // ----- how row changes move the projections

  lemma RuleInserted(rules: map<nat, RuleRow>, id: nat, row: RuleRow, node: int)
    requires id !in rules
    ensures RulesAt(rules[id := row], node) ==
            RulesAt(rules, node) + (if row.node == node then {(row.port, row.remote)} else {})
  {
    var after := rules[id := row];
    assert forall i | i in rules :: i in after && after[i] == rules[i];
    assert after[id] == row;
  }

  lemma RuleRemoved(rules: map<nat, RuleRow>, id: nat, node: int)
    requires id in rules && RulePortsDistinct(rules)
    ensures RulesAt(rules - {id}, node) ==
            RulesAt(rules, node) - (if rules[id].node == node then {(rules[id].port, rules[id].remote)} else {})
  {
    var after := rules - {id};
    assert forall i | i in after :: i in rules && after[i] == rules[i];
    assert forall i | i in rules && i != id :: i in after;
  }

  lemma RuleReplaced(rules: map<nat, RuleRow>, id: nat, row: RuleRow, node: int)
    requires id in rules && RulePortsDistinct(rules) && row.node == rules[id].node
    ensures RulesAt(rules[id := row], node) ==
            if row.node == node
            then RulesAt(rules, node) - {(rules[id].port, rules[id].remote)} + {(row.port, row.remote)}
            else RulesAt(rules, node)
  {
    RuleRemoved(rules, id, node);
    RuleInserted(rules - {id}, id, row, node);
    assert (rules - {id})[id := row] == rules[id := row];
  }

  lemma ChainInserted(chains: map<nat, ChainRow>, id: nat, row: ChainRow, node: int)
    requires id !in chains
    ensures ChainsAt(chains[id := row], node) == ChainsAt(chains, node) + (if row.node == node then {row.port} else {})
  {
    var after := chains[id := row];
    assert forall i | i in chains :: i in after && after[i] == chains[i];
    assert after[id] == row;
  }

  /** Deleting a chain row closes its port for the projection exactly when it was the port's last row. */
  lemma ChainRemoved(chains: map<nat, ChainRow>, id: nat, node: int)
    requires id in chains
    ensures var last := |RowsOn(chains, chains[id].node, chains[id].port)| == 1;
            ChainsAt(chains - {id}, node) ==
            ChainsAt(chains, node) - (if chains[id].node == node && last then {chains[id].port} else {})
  {
    var after := chains - {id};
    var sharing := RowsOn(chains, chains[id].node, chains[id].port);
    assert forall i | i in after :: i in chains && after[i] == chains[i];
    assert forall i | i in chains && i != id :: i in after;
    assert id in sharing;
    if |sharing| == 1 {
      OnlyElement(sharing, id);
    } else {
      var other := AnotherElement(sharing, id);
      assert other in after && after[other].port == chains[id].port;
    }
  }

  lemma OnlyElement(s: set<nat>, x: nat)
    requires x in s && |s| == 1
    ensures s == {x}
  {
    assert |s - {x}| == 0;
    assert s == {x} + (s - {x});
  }

  lemma AnotherElement(s: set<nat>, x: nat) returns (y: nat)
    requires x in s && |s| != 1
    ensures y in s && y != x
  {
    assert s != {x};
    y :| y in s && y != x;
  }

  // ----- agents and rows

  /** A port the agent can open is on no row of its node. */
  lemma FreePort(s: State, node: int, port: int)
    requires Inv(s) && s.AgentOf(node).Up? && Tcp(port) !in s.AgentOf(node).table
    ensures forall i | i in s.rules && s.rules[i].node == node :: s.rules[i].port != port
    ensures forall i | i in s.chains && s.chains[i].node == node :: s.chains[i].port != port
  {
    var t := s.AgentOf(node).table;
    assert Refined(s, node);
    forall i | i in s.rules && s.rules[i].node == node ensures s.rules[i].port != port {
      assert (s.rules[i].port, s.rules[i].remote) in RulesAt(s.rules, node);
      InProjections(t, s.rules[i].port, s.rules[i].remote);
    }
    forall i | i in s.chains && s.chains[i].node == node ensures s.chains[i].port != port {
      assert s.chains[i].port in ChainsAt(s.chains, node);
      InProjections(t, s.chains[i].port, "");
    }
  }

  /** A rule's port is open on its agent, for that rule. */
  lemma RuleIsOpen(s: State, id: nat)
    requires Inv(s) && id in s.rules && s.AgentOf(s.rules[id].node).Up?
    ensures var row := s.rules[id];
            var t := s.AgentOf(row.node).table;
            && Tcp(row.port) in t && t[Tcp(row.port)] == Entry(Service, row.remote)
            && (set pair | pair in RulesIn(t) && pair.0 != row.port) == RulesIn(t) - {(row.port, row.remote)}
            && row.port !in ChainsIn(t)
  {
    var row := s.rules[id];
    var t := s.AgentOf(row.node).table;
    assert Refined(s, row.node);
    assert (row.port, row.remote) in RulesAt(s.rules, row.node);
    InProjections(t, row.port, row.remote);
  }

  // ----- what leaves the match alone

  /** Changing neither port nor address leaves the projections alone. */
  lemma UnmovedRowKeeps(s: State, id: nat, row: RuleRow)
    requires Inv(s) && id in s.rules
    requires row.node == s.rules[id].node && row.port == s.rules[id].port && row.remote == s.rules[id].remote
    ensures Inv(s.(rules := s.rules[id := row]))
  {
    var after := s.(rules := s.rules[id := row]);
    forall node | node in after.agents ensures Refined(after, node) {
      assert Refined(s, node);
      RuleReplaced(s.rules, id, row, node);
      assert row.node == node ==> (row.port, row.remote) in RulesAt(s.rules, node);
    }
  }

  /** A chain's port is open on its agent, for no rule. */
  lemma ChainIsOpen(s: State, id: nat)
    requires Inv(s) && id in s.chains && s.AgentOf(s.chains[id].node).Up?
    ensures var row := s.chains[id];
            var t := s.AgentOf(row.node).table;
            row.port in ChainsIn(t) && (set pair | pair in RulesIn(t) && pair.0 != row.port) == RulesIn(t)
  {
    var row := s.chains[id];
    assert Refined(s, row.node);
    assert row.port in ChainsAt(s.chains, row.node);
  }

  // ----- crash and restart

  function PairsBelow(rules: map<nat, RuleRow>, node: int, k: nat): set<(int, string)> {
    set id | id in rules && id < k && rules[id].node == node :: (rules[id].port, rules[id].remote)
  }

  function PortsBelow(rules: map<nat, RuleRow>, node: int, k: nat): set<int> {
    set id | id in rules && id < k && rules[id].node == node :: rules[id].port
  }

  function ChainsBelow(chains: map<nat, ChainRow>, node: int, k: nat): set<int> {
    set id | id in chains && id < k && chains[id].node == node :: chains[id].port
  }

  lemma OneRowMore(rules: map<nat, RuleRow>, chains: map<nat, ChainRow>, node: int, k: nat)
    ensures PairsBelow(rules, node, k + 1) == PairsBelow(rules, node, k) +
              (if k in rules && rules[k].node == node then {(rules[k].port, rules[k].remote)} else {})
    ensures PortsBelow(rules, node, k + 1) == PortsBelow(rules, node, k) +
              (if k in rules && rules[k].node == node then {rules[k].port} else {})
    ensures ChainsBelow(chains, node, k + 1) == ChainsBelow(chains, node, k) +
              (if k in chains && chains[k].node == node then {chains[k].port} else {})
  {
  }

  /** No two rules of the node among the first `k` share a port. */
  predicate DistinctBelow(rules: map<nat, RuleRow>, node: int, k: nat) {
    forall i, j | i in rules && j in rules && i < k && j < k && i != j && rules[i].node == rules[j].node == node ::
      rules[i].port != rules[j].port
  }

  predicate Snapped(rules: map<nat, RuleRow>, node: int, k: nat) {
    && RulePairs(SnapRules(rules, node, k)) == PairsBelow(rules, node, k)
    && RulePorts(SnapRules(rules, node, k)) == PortsBelow(rules, node, k)
    && (DistinctPorts(SnapRules(rules, node, k)) <==> DistinctBelow(rules, node, k))
  }

  lemma SnapOneMore(rules: map<nat, RuleRow>, node: int, k: nat)
    requires Snapped(rules, node, k)
    ensures Snapped(rules, node, k + 1)
  {
    hide DistinctPorts, DistinctBelow, PairsBelow, PortsBelow, RulePairs, RulePorts;
    var before := SnapRules(rules, node, k);
    OneRowMore(rules, map[], node, k);
    DistinctOneMore(rules, node, k);
    if k in rules && rules[k].node == node {
      var vo := RuleVO(rules[k].port, rules[k].remote, rules[k].protocol);
      assert SnapRules(rules, node, k + 1) == before + [vo];
      VOAppended(before, vo);
    } else {
      assert SnapRules(rules, node, k + 1) == before;
    }
  }

  lemma {:induction false} SnapRulesPairs(rules: map<nat, RuleRow>, node: int, k: nat)
    ensures Snapped(rules, node, k)
  {
    if k > 0 {
      SnapRulesPairs(rules, node, k - 1);
      SnapOneMore(rules, node, k - 1);
    }
  }

  lemma DistinctOneMore(rules: map<nat, RuleRow>, node: int, k: nat)
    ensures DistinctBelow(rules, node, k + 1) <==>
      && DistinctBelow(rules, node, k)
      && (k in rules && rules[k].node == node ==> rules[k].port !in PortsBelow(rules, node, k))
  {
  }

  lemma VOAppended(rs: seq<RuleVO>, vo: RuleVO)
    ensures RulePairs(rs + [vo]) == RulePairs(rs) + {(vo.port, vo.remote)}
    ensures RulePorts(rs + [vo]) == RulePorts(rs) + {vo.port}
    ensures DistinctPorts(rs + [vo]) <==> DistinctPorts(rs) && vo.port !in RulePorts(rs)
  {
    var more := rs + [vo];
    assert forall i | 0 <= i < |rs| :: more[i] == rs[i];
    assert more[|rs|] == vo;
  }

  lemma {:induction false} SnapChainsPorts(chains: map<nat, ChainRow>, node: int, k: nat)
    ensures ChainPorts(SnapChains(chains, node, k)) == ChainsBelow(chains, node, k)
  {
    if k > 0 {
      var before := SnapChains(chains, node, k - 1);
      SnapChainsPorts(chains, node, k - 1);
      OneRowMore(map[], chains, node, k - 1);
      if k - 1 in chains && chains[k - 1].node == node {
        var vo := ChainVO(chains[k - 1].port, chains[k - 1].protocol);
        var more := before + [vo];
        assert SnapChains(chains, node, k) == more;
        assert forall i | 0 <= i < |before| :: more[i] == before[i];
        assert more[|before|] == vo;
      } else {
        assert SnapChains(chains, node, k) == before;
      }
    }
  }

  lemma RegisterNodeKeeps(s: State, node: int, r: RegisterReq, peer: string)
    requires Inv(s)
    ensures Inv(RegisterNode(s, node, r, peer, s, s).state)
  {
    var after := RegisterNode(s, node, r, peer, s, s);
    if after.ok {
      SnapRulesPairs(s.rules, node, s.nextRule);
      SnapChainsPorts(s.chains, node, s.nextChain);
      assert PairsBelow(s.rules, node, s.nextRule) == RulesAt(s.rules, node);
      assert ChainsBelow(s.chains, node, s.nextChain) == ChainsAt(s.chains, node);
      forall other | other in after.state.agents ensures Refined(after.state, other) {
        assert other != node ==> Refined(s, other);
      }
    }
  }

  lemma InitAgentKeeps(s: State, node: int, busy: set<int>, udp: bool)
    requires Inv(s)
    ensures Inv(InitAgent(s, node, busy, udp).state)
  {
    var after := InitAgent(s, node, busy, udp);
    if s.AgentOf(node).Starting? {
      AgentStarts(s.AgentOf(node).chains, s.AgentOf(node).rules, busy, udp);
      forall other | other in after.state.agents ensures Refined(after.state, other) {
        assert other in s.agents ==> Refined(s, other);
      }
    }
  }

  /** A snapshot that matches the rows always opens, unless another process holds one of its ports. */
  lemma RestartSucceeds(s: State, node: int, busy: set<int>, udp: bool)
    requires Inv(s) && s.AgentOf(node).Starting?
    ensures InitAgent(s, node, busy, udp).ok <==>
            ChainPorts(s.AgentOf(node).chains) !! busy && RulePorts(s.AgentOf(node).rules) !! busy
  {
    var chains, rules := s.AgentOf(node).chains, s.AgentOf(node).rules;
    assert Refined(s, node);
    AgentStarts(chains, rules, busy, udp);
    forall port | port in RulePorts(rules) ensures port !in ChainPorts(chains) {
      var i :| 0 <= i < |rules| && rules[i].port == port;
      assert (rules[i].port, rules[i].remote) in RulesAt(s.rules, node);
    }
  }

  lemma CrashKeeps(s: State, node: int)
    requires Inv(s)
    ensures Inv(Crash(s, node).state)
  {
    forall other | other in Crash(s, node).state.agents ensures Refined(Crash(s, node).state, other) {
      assert other != node ==> Refined(s, other);
    }
  }

  // ----- what one action undoes

  /** A restart undoes a crash: if no port has been taken meanwhile, the agent serves what it served before. */
  lemma RestartRestores(s: State, node: int, r: RegisterReq, peer: string, busy: set<int>, udp: bool)
    requires Inv(s) && node in s.nodes && s.AgentOf(node).Up? && PortsIn(s.AgentOf(node).table) !! busy
    ensures var crashed := Crash(s, node).state;
            var registered := RegisterNode(crashed, node, r, peer, crashed, crashed).state;
            var back := InitAgent(registered, node, busy, udp);
            && back.ok && back.state.AgentOf(node).Up?
            && RulesIn(back.state.AgentOf(node).table) == RulesIn(s.AgentOf(node).table)
            && ChainsIn(back.state.AgentOf(node).table) == ChainsIn(s.AgentOf(node).table)
  {
    var t := s.AgentOf(node).table;
    var crashed := Crash(s, node).state;
    var registered := RegisterNode(crashed, node, r, peer, crashed, crashed).state;
    CrashKeeps(s, node);
    RegisterNodeKeeps(crashed, node, r, peer);
    assert Refined(s, node) && Refined(registered, node);
    var chains, rules := registered.AgentOf(node).chains, registered.AgentOf(node).rules;
    assert forall port | port in ChainPorts(chains) :: port in ChainsIn(t);
    forall port | port in RulePorts(rules) ensures port in PortsIn(t) {
      var i :| 0 <= i < |rules| && rules[i].port == port;
      assert (rules[i].port, rules[i].remote) in RulesIn(t);
    }
    RestartSucceeds(registered, node, busy, udp);
    InitAgentKeeps(registered, node, busy, udp);
    assert Refined(InitAgent(registered, node, busy, udp).state, node);
  }
}
