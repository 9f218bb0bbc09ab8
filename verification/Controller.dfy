/** The controller's actions as the service layer performs them: guards, the call to the agent, then the rows. */
module Controller {
  import opened Wrappers
  import opened Text
  import opened PortTable
  import D = Deployment
  import F = InFlight

  class Service {
    var rules: map<nat, D.RuleRow>
    var chains: map<nat, D.ChainRow>
    var nodes: map<int, D.NodeRow>
    var agents: map<int, D.Agent>
    var nextRule: nat
    var nextChain: nat

    constructor ()
      ensures Contents() == D.START
    {
      rules, chains, nodes, agents := map[], map[], map[], map[];
      nextRule, nextChain := 0, 0;
    }

    function Contents(): D.State
      reads this
    {
      D.State(rules, chains, nodes, agents, nextRule, nextChain)
    }

    predicate Answers(node: int, lost: bool)
      reads this
    {
      node in agents && agents[node].Up? && !lost
    }

    method AddRule(r: D.AddRuleReq, lost: bool, bindable: bool) returns (ok: bool)
      modifies this
      ensures D.Outcome(Contents(), ok) == F.Alone(old(Contents()), F.AddRule(r), lost, bindable)
    {
      var protocol := if r.protocol.Some? then r.protocol.value else TCP;
      if r.node !in nodes || !nodes[r.node].registered {
        return false;
      }
      if !Answers(r.node, lost) {
        return false;
      }
      var agent := agents[r.node];
      var added := RuleAdded(agent.table, r.port, r.remote, protocol, bindable, agent.udp);
      if added.None? {
        return false;
      }
      agents := agents[r.node := D.Up(added.value, agent.udp)];
      rules := rules[nextRule := D.RuleRow(r.name, r.node, r.port, r.remote, r.chain, protocol)];
      nextRule := nextRule + 1;
      return true;
    }

    method DelRule(id: nat, lost: bool) returns (ok: bool)
      modifies this
      ensures D.Outcome(Contents(), ok) == F.Alone(old(Contents()), F.DelRule(id), lost, true)
    {
      if id !in rules {
        return false;
      }
      var row := rules[id];
      if row.node !in nodes {
        rules := rules - {id};
        return true;
      }
      if lost {
        return false;
      }
      if Answers(row.node, lost) {
        var agent := agents[row.node];
        agents := agents[row.node := D.Up(PortDeleted(agent.table, row.port), agent.udp)];
      }
      rules := rules - {id};
      return true;
    }

    /** The agent's half of a change: close the old port, then open the new one. */
    method AgentModify(node: int, oldPort: int, port: int, remote: string, protocol: Protocol, bindable: bool)
      returns (ok: bool)
      requires node in agents && agents[node].Up?
      modifies this`agents
      ensures var udp := old(agents)[node].udp;
              var (table, moved) := RuleMoved(old(agents)[node].table, oldPort, port, remote, protocol, bindable, udp);
              ok == moved && agents == old(agents)[node := D.Up(table, udp)]
    {
      var udp := agents[node].udp;
      var table := PortDeleted(agents[node].table, oldPort);
      var added := RuleAdded(table, port, remote, protocol, bindable, udp);
      if added.None? {
        agents := agents[node := D.Up(table, udp)];
        return false;
      }
      agents := agents[node := D.Up(added.value, udp)];
      return true;
    }

    /** What the agent is to be asked, and which of the row's fields are to be written. */
    method ChangeOf(id: nat, r: D.ModifyRuleReq) returns (change: Option<F.Task>)
      ensures change.Some? ==> change.value.ChangingRule?
      ensures F.Plan(F.AtOnce(Contents()), F.ModifyRule(id, r)) == if change.Some? then [change.value] else []
    {
      if id !in rules {
        return None;
      }
      var row := rules[id];
      var origin := if row.chain in chains then row.chain else 0;
      var needCallAgent, port, remote, protocol := false, row.port, row.remote, row.protocol;
      var newName: Option<string> := None;
      var chain: Option<int> := None;
      if r.chain != 0 && r.chain != origin {
        needCallAgent := true;
        if r.chain !in chains {
          return None;
        }
        protocol := chains[r.chain].protocol;
        chain := Some(r.chain);
      }
      if r.port != 0 && r.port != row.port {
        needCallAgent := true;
        port := r.port;
      }
      if r.name != "" {
        newName := Some(r.name);
      }
      if r.remote != "" && r.remote != row.remote {
        needCallAgent := true;
        remote := r.remote;
      }
      return Some(F.ChangingRule(id, row.node, row.port, port, remote, remote != row.remote, protocol, newName, chain,
                                 needCallAgent));
    }

    method ModifyRule(id: nat, r: D.ModifyRuleReq, lost: bool, bindable: bool) returns (ok: bool)
      modifies this
      ensures D.Outcome(Contents(), ok) == F.Alone(old(Contents()), F.ModifyRule(id, r), lost, bindable)
    {
      hide F.Plan, F.Changed, RuleMoved;
      var change := ChangeOf(id, r);
      if change.None? {
        return false;
      }
      var task := change.value;
      if task.calls {
        if !Answers(task.node, lost) {
          return false;
        }
        var called := AgentModify(task.node, task.oldPort, task.port, task.remote, task.protocol, bindable);
        if !called {
          return false;
        }
      }
      if task.id in rules {
        rules := rules[task.id := F.Changed(rules[task.id], task)];
      }
      return true;
    }

    /** The body of the loop over the selected rules, with the row as it was found. */
    method ModifyOne(id: nat, row: D.RuleRow, host: string, lost: bool, bindable: bool) returns (ok: bool)
      modifies this
      ensures D.Outcome(Contents(), ok) ==
              if D.Rehosted(row.remote, host).None? then D.Outcome(old(Contents()), false)
              else F.Performed(old(Contents()), F.HostChange(row, id, host), lost, bindable)
    {
      var remote := row.remote;
      if host != "" {
        var pieces := Split(remote, ':');
        if |pieces| < 2 {
          return false;
        }
        remote := host + ":" + pieces[1];
      }
      if !Answers(row.node, lost) {
        return false;
      }
      ok := AgentModify(row.node, row.port, row.port, remote, row.protocol, bindable);
      if ok && id in rules && host != "" {
        rules := rules[id := rules[id].(remote := remote)];
      }
    }

    /** The selected rules, as they are found, in the order of their ids; the first failure ends the action. */
    method ModifyRules(ids: set<nat>, host: string, lost: set<nat>, unbindable: set<nat>) returns (ok: bool)
      modifies this
      ensures D.Outcome(Contents(), ok) == F.BulkAlone(old(Contents()), ids, host, lost, unbindable, old(nextRule))
    {
      hide F.Performed, F.BulkAlone;
      ghost var s := Contents();
      var found, n := rules, nextRule;
      NothingYet(s, ids, host, lost, unbindable);
      for id := 0 to n
        invariant D.Outcome(Contents(), true) == F.BulkAlone(s, ids, host, lost, unbindable, id)
      {
        F.BulkOneMore(s, ids, host, lost, unbindable, id);
        if id in ids && id in found {
          var done := ModifyOne(id, found[id], host, id in lost, id !in unbindable);
          if !done {
            F.BulkStuck(s, ids, host, lost, unbindable, id + 1, n);
            return false;
          }
        }
      }
      return true;
    }

    method AddChain(r: D.AddChainReq, lost: bool, bindable: bool) returns (ok: bool)
      modifies this
      ensures D.Outcome(Contents(), ok) == F.Alone(old(Contents()), F.AddChain(r), lost, bindable)
    {
      hide ChainAdded, D.RowsOn, D.Taken;
      var protocol := if r.protocol.Some? then r.protocol.value else TCP;
      if r.node !in nodes || !nodes[r.node].registered {
        return false;
      }
      var node := nodes[r.node];
      if r.preferIpv6 && node.ipv6.None? {
        return false;
      }
      var ip := node.ip;
      if r.preferIpv6 {
        ip := node.ipv6.value;
      }
      if D.Taken(chains, r.node, r.port, ip) {
        return false;
      }
      var count := |D.RowsOn(chains, r.node, r.port)|;
      if count == 0 {
        if !Answers(r.node, lost) {
          return false;
        }
        var agent := agents[r.node];
        var added := ChainAdded(agent.table, r.port, bindable, agent.udp);
        if added.None? {
          return false;
        }
        agents := agents[r.node := D.Up(added.value, agent.udp)];
      }
      chains := chains[nextChain := D.ChainRow(r.node, r.port, ip, protocol)];
      nextChain := nextChain + 1;
      return true;
    }

    method DelChain(id: nat, admin: bool, lost: bool) returns (ok: bool)
      modifies this
      ensures D.Outcome(Contents(), ok) == F.Alone(old(Contents()), F.DelChain(id, admin), lost, true)
    {
      if id !in chains {
        return false;
      }
      var row := chains[id];
      var count := |D.RowsOn(chains, row.node, row.port)|;
      if count == 1 {
        if !Answers(row.node, lost) {
          return false;
        }
        var agent := agents[row.node];
        agents := agents[row.node := D.Up(PortDeleted(agent.table, row.port), agent.udp)];
      } else if !admin {
        return false;
      }
      chains := chains - {id};
      return true;
    }

    /** The response lists the node's chains and rules; the node's addresses are stored last. */
    method RegisterNode(node: int, r: D.RegisterReq, peer: string) returns (ok: bool)
      modifies this
      ensures var before := old(Contents());
              D.Outcome(Contents(), ok) == D.RegisterNode(before, node, r, peer, before, before)
    {
      if node !in nodes || (node in agents && !agents[node].Down?) {
        return false;
      }
      var clientIp := r.ipv4;
      if r.preferIpv6 {
        clientIp := r.ipv6;
      }
      if clientIp == "" {
        clientIp := peer;
      }
      var managerIp := r.managerIp;
      if managerIp == "" {
        managerIp := clientIp;
      }
      var port := if r.port == 0 then D.DEFAULT_PORT else r.port;
      var chainVOs: seq<ChainVO>, ruleVOs: seq<RuleVO> := [], [];
      for id := 0 to nextChain
        invariant chainVOs == D.SnapChains(chains, node, id)
      {
        if id in chains && chains[id].node == node {
          chainVOs := chainVOs + [ChainVO(chains[id].port, chains[id].protocol)];
        }
      }
      for id := 0 to nextRule
        invariant ruleVOs == D.SnapRules(rules, node, id)
      {
        if id in rules && rules[id].node == node {
          ruleVOs := ruleVOs + [RuleVO(rules[id].port, rules[id].remote, rules[id].protocol)];
        }
      }
      nodes := nodes[node := D.NodeRow(true, clientIp, r.ipv4, Some(r.ipv6), managerIp, port)];
      agents := agents[node := D.Starting(chainVOs, ruleVOs)];
      return true;
    }
  }

  lemma NothingYet(s: D.State, ids: set<nat>, host: string, lost: set<nat>, unbindable: set<nat>)
    ensures F.BulkAlone(s, ids, host, lost, unbindable, 0) == D.Outcome(s, true)
  {
  }
}
