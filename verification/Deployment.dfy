/**
 The controller's tables and its agents' port tables, what is asked of them, and how an agent comes and goes. An
 agent crashes at any time and comes back in two steps: it registers, taking a snapshot of its rows, and then opens
 what the snapshot lists; until then it refuses calls.
 */
module Deployment {
  import opened Wrappers
  import opened Text
  import opened PortTable

  datatype RuleRow = RuleRow(name: string, node: int, port: int, remote: string, chain: int, protocol: Protocol)

  datatype ChainRow = ChainRow(node: int, port: int, ip: string, protocol: Protocol)

  /** An unregistered node has no addresses. */
  datatype NodeRow = NodeRow(
    registered: bool, ip: string, ipv4: string, ipv6: Option<string>, managerIp: string, port: int)

  datatype Agent =
    | Down
    | Starting(chains: seq<ChainVO>, rules: seq<RuleVO>)
    | Up(table: Table, udp: bool)

  datatype State = State(
    rules: map<nat, RuleRow>, chains: map<nat, ChainRow>, nodes: map<int, NodeRow>, agents: map<int, Agent>,
    nextRule: nat, nextChain: nat)
  {
    function AgentOf(node: int): Agent {
      if node in agents then agents[node] else Down
    }

    function WithTable(node: int, table: Table): State
      requires AgentOf(node).Up?
    {
      this.(agents := agents[node := AgentOf(node).(table := table)])
    }
  }

  const START := State(map[], map[], map[], map[], 0, 0)

  /** The state an action leaves, and whether it reports success. */
  datatype Outcome = Outcome(state: State, ok: bool)

  // ----- rules

  datatype AddRuleReq = AddRuleReq(
    name: string, node: int, port: int, remote: string, chain: int, protocol: Option<Protocol>)
  {
    function ChainType(): Protocol {
      if protocol.Some? then protocol.value else TCP
    }

    function Row(): RuleRow {
      RuleRow(name, node, port, remote, chain, ChainType())
    }
  }

  /** Zero and the empty string leave a field as it is. */
  datatype ModifyRuleReq = ModifyRuleReq(name: string, port: int, remote: string, chain: int)

  /** The chain a rule is on, as gorm preloads it: 0 when the row is gone. */
  function OriginChain(s: State, row: RuleRow): int {
    if row.chain in s.chains then row.chain else 0
  }

  predicate MovesChain(s: State, row: RuleRow, r: ModifyRuleReq) {
    r.chain != 0 && r.chain != OriginChain(s, row)
  }

  function NewPort(row: RuleRow, r: ModifyRuleReq): int {
    if r.port != 0 then r.port else row.port
  }

  function NewRemote(row: RuleRow, r: ModifyRuleReq): string {
    if r.remote != "" then r.remote else row.remote
  }

  predicate NeedsAgent(s: State, row: RuleRow, r: ModifyRuleReq) {
    MovesChain(s, row, r) || NewPort(row, r) != row.port || NewRemote(row, r) != row.remote
  }

  /** A new host in front of the old port; no reading when the old address has no port to keep. */
  function Rehosted(remote: string, host: string): Option<string> {
    if host == "" then Some(remote)
    else
      var pieces := Split(remote, ':');
      if |pieces| < 2 then None else Some(host + ":" + pieces[1])
  }

  // ----- chains

  datatype AddChainReq = AddChainReq(node: int, port: int, preferIpv6: bool, protocol: Option<Protocol>)

  function ChainIp(node: NodeRow, preferIpv6: bool): string
    requires preferIpv6 ==> node.ipv6.Some?
  {
    if preferIpv6 then node.ipv6.value else node.ip
  }

  function RowsOn(chains: map<nat, ChainRow>, node: int, port: int): set<nat> {
    set id | id in chains && chains[id].node == node && chains[id].port == port
  }

  predicate Taken(chains: map<nat, ChainRow>, node: int, port: int, ip: string) {
    exists id | id in chains :: chains[id].node == node && chains[id].port == port && chains[id].ip == ip
  }

  // ----- nodes and agents

  /** The rules of a node among the first `k` rows, as an agent is told them. */
  function SnapRules(rules: map<nat, RuleRow>, node: int, k: nat): seq<RuleVO> {
    if k == 0 then []
    else
      SnapRules(rules, node, k - 1) +
      (if k - 1 in rules && rules[k - 1].node == node
       then [RuleVO(rules[k - 1].port, rules[k - 1].remote, rules[k - 1].protocol)] else [])
  }

  function SnapChains(chains: map<nat, ChainRow>, node: int, k: nat): seq<ChainVO> {
    if k == 0 then []
    else
      SnapChains(chains, node, k - 1) +
      (if k - 1 in chains && chains[k - 1].node == node
       then [ChainVO(chains[k - 1].port, chains[k - 1].protocol)] else [])
  }

  function AddNode(s: State, node: int): Outcome {
    if node in s.nodes then Outcome(s, false)
    else Outcome(s.(nodes := s.nodes[node := NodeRow(false, "", "", None, "", 0)]), true)
  }

  datatype RegisterReq = RegisterReq(ipv4: string, ipv6: string, preferIpv6: bool, port: int, managerIp: string)

  const DEFAULT_PORT := 8123

  /** The addresses a registration stores: an agent that names none is reached where it called from. */
  function Addressed(r: RegisterReq, peer: string): NodeRow {
    var named := if r.preferIpv6 then r.ipv6 else r.ipv4;
    var ip := if named == "" then peer else named;
    NodeRow(true, ip, r.ipv4, Some(r.ipv6), if r.managerIp == "" then ip else r.managerIp,
            if r.port == 0 then DEFAULT_PORT else r.port)
  }

  /**
   A starting agent registers: its addresses are stored and it is handed its rules and chains, which have been read
   at two moments before.
   */
  function RegisterNode(s: State, node: int, r: RegisterReq, peer: string, rulesRead: State, chainsRead: State)
    : Outcome
  {
    if node !in s.nodes || !s.AgentOf(node).Down? then Outcome(s, false)
    else
      var snapshot := Starting(SnapChains(chainsRead.chains, node, chainsRead.nextChain),
                               SnapRules(rulesRead.rules, node, rulesRead.nextRule));
      Outcome(s.(nodes := s.nodes[node := Addressed(r, peer)], agents := s.agents[node := snapshot]), true)
  }

  /** A registered agent opens its snapshot, or panics and is down. */
  function InitAgent(s: State, node: int, busy: set<int>, udp: bool): Outcome {
    match s.AgentOf(node)
    case Starting(chains, rules) =>
      var started := AgentStarted(chains, rules, busy, udp);
      if started.Some? then Outcome(s.(agents := s.agents[node := Up(started.value, udp)]), true)
      else Outcome(s.(agents := s.agents[node := Down]), false)
    case _ => Outcome(s, false)
  }

  function Crash(s: State, node: int): Outcome {
    Outcome(s.(agents := s.agents[node := Down]), true)
  }
}
