/**
 What the controller's actions leave in the rows and in an agent's table when nothing comes between their steps, told
 from the request, the rows and the table before.
 */
module Results {
  import opened Wrappers
  import opened Text
  import opened PortTable
  import opened Refinement
  import opened InFlight
  import opened StepEffects
  import opened Undisturbed
  import D = Deployment

  /** An agent that is up, and with UDP as it was, has this table. */
  predicate HasTable(s: D.State, after: D.State, node: int, table: Table) {
    s.AgentOf(node).Up? && after.agents == s.agents[node := D.Up(table, s.AgentOf(node).udp)]
  }

  predicate Registered(s: D.State, node: int) {
    node in s.nodes && s.nodes[node].registered
  }

  // ----- rules

  lemma AddedRule(s: D.State, r: D.AddRuleReq, lost: bool, bindable: bool)
    requires Inv(s)
    ensures var done := Alone(s, AddRule(r), lost, bindable);
            var after, agent := done.state, s.AgentOf(r.node);
            var protocol := if r.protocol == Some(TLS) then TLS else TCP;
            && (done.ok <==> Registered(s, r.node) && agent.Up? && !lost && bindable && Tcp(r.port) !in agent.table)
            && (!done.ok ==> after == s)
            && (done.ok ==>
                  && after.rules ==
                     s.rules[s.nextRule := D.RuleRow(r.name, r.node, r.port, r.remote, r.chain, protocol)]
                  && after.nextRule == s.nextRule + 1
                  && after.AgentOf(r.node).Up? && HasTable(s, after, r.node, after.AgentOf(r.node).table)
                  && RuleServed(after.AgentOf(r.node).table, r.port, r.remote, protocol, agent.udp)
                  && SameBut(agent.table, after.AgentOf(r.node).table, {r.port}))
  {
    hide Inv, RuleServed, SameBut, RuleAdded;
    assert r.ChainType() == if r.protocol == Some(TLS) then TLS else TCP by {
      assert r.protocol.Some? ==> r.protocol.value == TLS || r.protocol.value == TCP;
    }
    if s.AgentOf(r.node).Up? {
      Matches(s, r.node);
      var agent := s.AgentOf(r.node);
      OpensAsAsked(agent.table, r.port, r.remote, r.Row().protocol, bindable, agent.udp);
      assert agent.(table := agent.table) == agent && s.agents[r.node := agent] == s.agents;
      assert s.WithTable(r.node, agent.table) == s;
    }
  }

  lemma DeletedRule(s: D.State, id: nat, lost: bool)
    requires Inv(s)
    ensures var done := Alone(s, DelRule(id), lost, true);
            && (done.ok <==> id in s.rules && (s.rules[id].node in s.nodes ==> !lost))
            && (!done.ok ==> done.state == s)
            && (done.ok ==>
                  var node, port := s.rules[id].node, s.rules[id].port;
                  && done.state.rules == s.rules - {id}
                  && (!s.AgentOf(node).Up? ==> done.state.agents == s.agents)
                  && (s.AgentOf(node).Up? ==>
                        && done.state.AgentOf(node).Up? && HasTable(s, done.state, node, done.state.AgentOf(node).table)
                        && Closed(done.state.AgentOf(node).table, port)
                        && SameBut(s.AgentOf(node).table, done.state.AgentOf(node).table, {port})))
  {
    assert id in s.rules && s.rules[id].node !in s.nodes ==> !s.AgentOf(s.rules[id].node).Up?;
    hide Inv, Closed, SameBut, PortDeleted;
    if id in s.rules && s.AgentOf(s.rules[id].node).Up? {
      Matches(s, s.rules[id].node);
      OpensAsAsked(s.AgentOf(s.rules[id].node).table, s.rules[id].port, "", TCP, true, false);
    }
  }

  /** What a change asks for: zero and the empty string leave a field as it is, and so does the chain there is. */
  datatype Asked = Asked(name: string, port: int, remote: string, chain: Option<int>, protocol: Protocol, calls: bool)

  predicate AsksFor(s: D.State, row: D.RuleRow, r: D.ModifyRuleReq, a: Asked) {
    var origin := if row.chain in s.chains then row.chain else 0;
    && a.name == (if r.name == "" then row.name else r.name)
    && a.port == (if r.port == 0 then row.port else r.port)
    && a.remote == (if r.remote == "" then row.remote else r.remote)
    && a.chain == (if r.chain == 0 || r.chain == origin then None else Some(r.chain))
    && (a.chain.Some? ==> a.chain.value in s.chains)
    && a.protocol == (if a.chain.Some? then s.chains[a.chain.value].protocol else row.protocol)
    && (a.calls <==> a.chain.Some? || a.port != row.port || a.remote != row.remote)
  }

  /**
   A change needs the agent unless only the name changes. The row gets the new fields but keeps its protocol; the
   agent serves the port under the new chain's protocol, and nothing on the old one.
   */
  lemma ChangedRule(s: D.State, id: nat, r: D.ModifyRuleReq, a: Asked, lost: bool, bindable: bool)
    requires Inv(s) && id in s.rules && AsksFor(s, s.rules[id], r, a)
    ensures var done, row := Alone(s, ModifyRule(id, r), lost, bindable), s.rules[id];
            var after, agent := done.state, s.AgentOf(row.node);
            && (done.ok <==> a.calls ==>
                  agent.Up? && !lost && bindable && (a.port == row.port || Tcp(a.port) !in agent.table))
            && after.rules == (if !done.ok then s.rules else
                 s.rules[id := D.RuleRow(a.name, row.node, a.port, a.remote,
                                         if a.chain.Some? then a.chain.value else row.chain, row.protocol)])
            && (!a.calls || lost || !agent.Up? ==> after.agents == s.agents)
            && (a.calls && !lost && agent.Up? ==>
                  && after.AgentOf(row.node).Up? && HasTable(s, after, row.node, after.AgentOf(row.node).table)
                  && SameBut(agent.table, after.AgentOf(row.node).table, {row.port, a.port})
                  && (done.ok ==> RuleServed(after.AgentOf(row.node).table, a.port, a.remote, a.protocol, agent.udp))
                  && (!done.ok || a.port != row.port ==> Closed(after.AgentOf(row.node).table, row.port)))
  {
    hide Inv, RuleServed, SameBut, Closed, RuleMoved;
    var row := s.rules[id];
    var agent := s.AgentOf(row.node);
    if agent.Up? {
      Matches(s, row.node);
      MovesAsAsked(agent.table, row.port, a.port, a.remote, a.protocol, bindable, agent.udp);
      var moved := RuleMoved(agent.table, row.port, a.port, a.remote, a.protocol, bindable, agent.udp).0;
      WiderSame(agent.table, moved, row.port, a.port);
    }
  }

  lemma WiderSame(t: Table, u: Table, port: int, other: int)
    ensures SameBut(t, u, {port}) ==> SameBut(t, u, {port, other})
  {
  }

  /** A rule that does not exist, or a chain that does not exist to move to: nothing happens. */
  lemma NotChanged(s: D.State, id: nat, r: D.ModifyRuleReq, lost: bool, bindable: bool)
    requires || id !in s.rules
             || (r.chain != 0 && r.chain !in s.chains)
    ensures Alone(s, ModifyRule(id, r), lost, bindable) == D.Outcome(s, false)
  {
  }

  // ----- the bulk change

  /** One rule's turn moves nothing but the agent's table and, when there is a new host, the rule's address. */
  lemma TurnRows(s: D.State, row: D.RuleRow, id: nat, host: string, lost: bool, bindable: bool)
    requires id in s.rules && D.Rehosted(row.remote, host).Some?
    ensures var done := Performed(s, HostChange(row, id, host), lost, bindable);
            done.state.rules ==
            if done.ok && host != "" then
              s.rules[id := s.rules[id].(remote := D.Rehosted(row.remote, host).value)]
            else s.rules
  {
    hide RuleMoved, D.Rehosted;
    assert s.rules[id := s.rules[id]] == s.rules;
  }

  /** A row after the rules below `k` have had their turn. */
  lemma {:induction false} RowBelow(s: D.State, r: Bulk, k: nat, id: nat)
    requires Inv(s) && id in s.rules
    ensures Below(s, r, k).state.rules.Keys == s.rules.Keys
    ensures D.Rehosted(s.rules[id].remote, r.host).Some? <==> r.host == "" || ':' in s.rules[id].remote
    ensures Below(s, r, k).state.rules[id] ==
            if r.host != "" && id < k && Selected(s, r, id) && ReachesTo(s, r, id + 1)
            then s.rules[id].(remote := D.Rehosted(s.rules[id].remote, r.host).value)
            else s.rules[id]
  {
    hide Inv, Performed, BulkAlone, D.Rehosted;
    RehostedWhen(s.rules[id].remote, r.host);
    BelowFrame(s, r, k);
    if k == 0 {
      NothingBelow(s, r);
    } else {
      var i := k - 1;
      RowBelow(s, r, i, id);
      BelowFrame(s, r, i);
      BulkOneMore(s, r.ids, r.host, r.lost, r.unbindable, i);
      ModifyRulesKeeps(s, r, i);
      LastSelected(s, r, k);
      var before := Below(s, r, i);
      if before.ok && Selected(s, r, i) {
        NoneStrandedBefore(s, r, i);
        RehostedWhen(s.rules[i].remote, r.host);
        if D.Rehosted(s.rules[i].remote, r.host).Some? {
          OneTurnKeeps(s, before.state, r, i);
          TurnRows(before.state, s.rules[i], i, r.host, i in r.lost, i !in r.unbindable);
        }
      }
    }
  }

  /**
   A selected rule that the bulk change gets to keeps what stands between the first two colons of its address, or
   between the first and the end, behind the new host.
   */
  lemma RehostedRow(s: D.State, r: Bulk, id: nat, head: string, port: string, rest: string)
    requires Inv(s) && id in s.rules && id in r.ids && r.host != "" && ReachesTo(s, r, id + 1)
    requires s.rules[id].remote == head + ":" + port + rest && ':' !in head && ':' !in port
    requires rest == "" || rest[0] == ':'
    ensures var after := Below(s, r, s.nextRule).state;
            && after.rules.Keys == s.rules.Keys
            && after.rules[id] == s.rules[id].(remote := r.host + ":" + port)
  {
    hide Inv, BulkAlone, ReachesTo;
    assert id < s.nextRule by { IdsGivenOut(s, id); }
    SplitTwo(head, ':', port, rest);
    assert head + ":" + port + rest == head + [':'] + port + rest;
    RowBelow(s, r, s.nextRule, id);
  }

  lemma IdsGivenOut(s: D.State, id: nat)
    requires Inv(s) && id in s.rules
    ensures id < s.nextRule
  {
  }

  /** Other rules keep their rows: those not selected, those after the first failure, and all when no host is given. */
  lemma RowKept(s: D.State, r: Bulk, id: nat)
    requires Inv(s) && id in s.rules
    requires id !in r.ids || r.host == "" || !ReachesTo(s, r, id + 1)
    ensures id in Below(s, r, s.nextRule).state.rules && Below(s, r, s.nextRule).state.rules[id] == s.rules[id]
  {
    RowBelow(s, r, s.nextRule, id);
  }

  /** When the bulk change succeeds it has got to every selected rule, and none of them was without a colon. */
  lemma BulkSucceeds(s: D.State, r: Bulk, id: nat)
    requires Inv(s) && Below(s, r, s.nextRule).ok && id in s.rules && id in r.ids
    ensures ReachesTo(s, r, id + 1) && (r.host != "" ==> ':' in s.rules[id].remote)
  {
    hide BulkAlone;
    ModifyRulesKeeps(s, r, s.nextRule);
    assert Selected(s, r, id) && CallsFor(s, r, id);
  }

  /** One rule's turn, seen from another: a port of another node, or another port, is left alone. */
  lemma TurnTable(s: D.State, row: D.RuleRow, id: nat, host: string, lost: bool, bindable: bool, node: int, port: int)
    requires Inv(s) && D.Rehosted(row.remote, host).Some? && s.AgentOf(node).Up?
    requires s.AgentOf(row.node).Up? ==> Paired(s.AgentOf(row.node).table)
    ensures var done := Performed(s, HostChange(row, id, host), lost, bindable);
            var t, after := s.AgentOf(node).table, done.state.AgentOf(node);
            && after.Up? && after.udp == s.AgentOf(node).udp
            && (node != row.node || port != row.port ==>
                  (Tcp(port) in t <==> Tcp(port) in after.table) && (Udp(port) in t <==> Udp(port) in after.table)
                  && (Tcp(port) in t ==> t[Tcp(port)] == after.table[Tcp(port)]))
            && (done.ok && node == row.node && port == row.port ==>
                  RuleServed(after.table, port, D.Rehosted(row.remote, host).value, row.protocol, after.udp))
  {
    hide Inv, RuleMoved, D.Rehosted, RuleServed;
    if s.AgentOf(row.node).Up? {
      var agent := s.AgentOf(row.node);
      MovesAsAsked(agent.table, row.port, row.port, D.Rehosted(row.remote, host).value, row.protocol, bindable,
                   agent.udp);
      assert Tcp(port).port == port && Udp(port).port == port;
    }
  }

  /** The agent serves each rule the bulk change got to under the address it was to get and the rule's own protocol. */
  lemma {:induction false} ServedBelow(s: D.State, r: Bulk, k: nat, id: nat)
    requires Inv(s) && Below(s, r, k).ok && id < k && Selected(s, r, id)
    ensures D.Rehosted(s.rules[id].remote, r.host).Some?
    ensures var row, agent := s.rules[id], Below(s, r, k).state.AgentOf(s.rules[id].node);
            && agent.Up? && s.AgentOf(row.node).Up? && agent.udp == s.AgentOf(row.node).udp
            && RuleServed(agent.table, row.port, D.Rehosted(row.remote, r.host).value, row.protocol, agent.udp)
  {
    hide Inv, Performed, BulkAlone, D.Rehosted;
    var i := k - 1;
    var row := s.rules[id];
    RehostedWhen(row.remote, r.host);
    ModifyRulesKeeps(s, r, k);
    assert CallsFor(s, r, id);
    BulkOneMore(s, r.ids, r.host, r.lost, r.unbindable, i);
    var before := Below(s, r, i).state;
    if id < i {
      ServedBelow(s, r, i, id);
    } else {
      BelowFrame(s, r, i);
      UdpBelow(s, r, i, row.node);
    }
    if Selected(s, r, i) {
      RehostedWhen(s.rules[i].remote, r.host);
      ModifyRulesKeeps(s, r, i);
      NoneStrandedBefore(s, r, i);
      if before.AgentOf(s.rules[i].node).Up? {
        Matches(before, s.rules[i].node);
      }
      DifferentPorts(s, id, i);
      TurnTable(before, s.rules[i], i, r.host, i in r.lost, i !in r.unbindable, row.node, row.port);
    }
  }

  lemma DifferentPorts(s: D.State, id: nat, other: nat)
    requires Inv(s) && id in s.rules && other in s.rules
    ensures id == other || s.rules[id].node != s.rules[other].node || s.rules[id].port != s.rules[other].port
  {
  }

  lemma {:induction false} UdpBelow(s: D.State, r: Bulk, k: nat, node: int)
    requires Inv(s) && s.AgentOf(node).Up? && Below(s, r, k).ok
    ensures Below(s, r, k).state.AgentOf(node).Up? && Below(s, r, k).state.AgentOf(node).udp == s.AgentOf(node).udp
  {
    hide Inv, Performed, BulkAlone, D.Rehosted;
    if k == 0 {
      NothingBelow(s, r);
    } else {
      var i := k - 1;
      BulkOneMore(s, r.ids, r.host, r.lost, r.unbindable, i);
      UdpBelow(s, r, i, node);
      if Selected(s, r, i) {
        var before := Below(s, r, i).state;
        ModifyRulesKeeps(s, r, i);
        NoneStrandedBefore(s, r, i);
        if before.AgentOf(s.rules[i].node).Up? {
          Matches(before, s.rules[i].node);
        }
        if D.Rehosted(s.rules[i].remote, r.host).Some? {
          TurnTable(before, s.rules[i], i, r.host, i in r.lost, i !in r.unbindable, node, 0);
        }
      }
    }
  }

  /**
   A bulk change that succeeds with a new host: every selected rule, on its row and on its agent, forwards to the new
   host and the port it had, under the protocol it had.
   */
  lemma BulkRehosts(s: D.State, r: Bulk, id: nat, head: string, port: string, rest: string)
    requires Inv(s) && Below(s, r, s.nextRule).ok && id in s.rules && id in r.ids && r.host != ""
    requires s.rules[id].remote == head + ":" + port + rest && ':' !in head && ':' !in port
    requires rest == "" || rest[0] == ':'
    ensures var row, after := s.rules[id], Below(s, r, s.nextRule).state;
            && id in after.rules && after.rules[id] == row.(remote := r.host + ":" + port)
            && s.AgentOf(row.node).Up? && after.AgentOf(row.node).Up?
            && RuleServed(after.AgentOf(row.node).table, row.port, r.host + ":" + port, row.protocol,
                          s.AgentOf(row.node).udp)
  {
    hide Inv, BulkAlone, ReachesTo, RuleServed;
    IdsGivenOut(s, id);
    BulkSucceeds(s, r, id);
    RehostedRow(s, r, id, head, port, rest);
    SplitTwo(head, ':', port, rest);
    assert head + ":" + port + rest == head + [':'] + port + rest;
    ServedBelow(s, r, s.nextRule, id);
  }

  /** Without a host it opens every selected rule anew on its agent, and leaves all rows as they are. */
  lemma BulkWithoutHost(s: D.State, ids: set<nat>, lost: set<nat>, unbindable: set<nat>)
    requires Inv(s)
    ensures var r := Bulk(ids, "", lost, unbindable);
            var done := Below(s, r, s.nextRule);
            && done.state.rules == s.rules
            && (done.ok ==> forall id: nat | id in ids && id in s.rules ::
                  var row, agent := s.rules[id], done.state.AgentOf(s.rules[id].node);
                  agent.Up? && RuleServed(agent.table, row.port, row.remote, row.protocol, agent.udp))
  {
    hide Inv, BulkAlone, RuleServed;
    var r := Bulk(ids, "", lost, unbindable);
    var done := Below(s, r, s.nextRule);
    BelowFrame(s, r, s.nextRule);
    forall id | id in s.rules ensures done.state.rules[id] == s.rules[id] {
      RowBelow(s, r, s.nextRule, id);
    }
    if done.ok {
      forall id: nat | id in ids && id in s.rules
        ensures var row, agent := s.rules[id], done.state.AgentOf(s.rules[id].node);
                agent.Up? && RuleServed(agent.table, row.port, row.remote, row.protocol, agent.udp)
      {
        IdsGivenOut(s, id);
        ServedBelow(s, r, s.nextRule, id);
      }
    }
  }

  // ----- chains

  predicate OnPort(s: D.State, node: int, port: int) {
    exists id | id in s.chains :: s.chains[id].node == node && s.chains[id].port == port
  }

  predicate AddressFree(s: D.State, node: int, port: int, ip: string) {
    forall id | id in s.chains :: !(s.chains[id].node == node && s.chains[id].port == port && s.chains[id].ip == ip)
  }

  /** A chain row gets the node's address of the kind asked for, and the agent opens the port for its first row. */
  lemma AddedChain(s: D.State, r: D.AddChainReq, lost: bool, bindable: bool)
    requires Inv(s)
    ensures var done := Alone(s, AddChain(r), lost, bindable);
            var after, agent := done.state, s.AgentOf(r.node);
            var ip := if !Registered(s, r.node) then None
                      else if r.preferIpv6 then s.nodes[r.node].ipv6 else Some(s.nodes[r.node].ip);
            var first := !OnPort(s, r.node, r.port);
            && (done.ok <==>
                  && ip.Some?
                  && AddressFree(s, r.node, r.port, ip.value)
                  && (first ==> agent.Up? && !lost && bindable && Tcp(r.port) !in agent.table))
            && (!done.ok ==> after == s)
            && (done.ok ==>
                  && after.chains == s.chains[s.nextChain :=
                       D.ChainRow(r.node, r.port, ip.value, if r.protocol == Some(TLS) then TLS else TCP)]
                  && after.nextChain == s.nextChain + 1
                  && (!first ==> after.agents == s.agents)
                  && (first ==>
                        && after.AgentOf(r.node).Up? && HasTable(s, after, r.node, after.AgentOf(r.node).table)
                        && ChainServed(after.AgentOf(r.node).table, r.port, agent.udp)
                        && SameBut(agent.table, after.AgentOf(r.node).table, {r.port})))
  {
    hide Inv, ChainServed, SameBut, ChainAdded, D.Taken, D.RowsOn, OnPort, AddressFree;
    FirstOnPort(s, r.node, r.port);
    if Registered(s, r.node) && (r.preferIpv6 ==> s.nodes[r.node].ipv6.Some?) {
      FreeOrTaken(s, r.node, r.port, D.ChainIp(s.nodes[r.node], r.preferIpv6));
    }
    assert r.protocol.Some? ==> r.protocol.value == TLS || r.protocol.value == TCP;
    if s.AgentOf(r.node).Up? {
      Matches(s, r.node);
      var agent := s.AgentOf(r.node);
      OpensAsAsked(agent.table, r.port, "", TCP, bindable, agent.udp);
      assert agent.(table := agent.table) == agent && s.agents[r.node := agent] == s.agents;
      assert s.WithTable(r.node, agent.table) == s;
    }
  }

  lemma FreeOrTaken(s: D.State, node: int, port: int, ip: string)
    ensures AddressFree(s, node, port, ip) <==> !D.Taken(s.chains, node, port, ip)
  {
  }

  lemma FirstOnPort(s: D.State, node: int, port: int)
    ensures D.RowsOn(s.chains, node, port) == {} <==> !OnPort(s, node, port)
  {
    if OnPort(s, node, port) {
      var id :| id in s.chains && s.chains[id].node == node && s.chains[id].port == port;
      assert id in D.RowsOn(s.chains, node, port);
    }
  }

  /** No other row is on the port of this one. */
  predicate LastRow(s: D.State, id: nat)
    requires id in s.chains
  {
    forall other | other in s.chains && other != id ::
      s.chains[other].node != s.chains[id].node || s.chains[other].port != s.chains[id].port
  }

  /** The last row on a port closes it on the agent; any other row only an administrator deletes, without the agent. */
  lemma DeletedChain(s: D.State, id: nat, admin: bool, lost: bool)
    requires Inv(s)
    ensures var done := Alone(s, DelChain(id, admin), lost, true);
            && (done.ok <==>
                  && id in s.chains
                  && (if LastRow(s, id) then s.AgentOf(s.chains[id].node).Up? && !lost else admin))
            && (!done.ok ==> done.state == s)
            && (done.ok ==>
                  var node, port := s.chains[id].node, s.chains[id].port;
                  && done.state.chains == s.chains - {id}
                  && (!LastRow(s, id) ==> done.state.agents == s.agents)
                  && (LastRow(s, id) ==>
                        && done.state.AgentOf(node).Up? && HasTable(s, done.state, node, done.state.AgentOf(node).table)
                        && Closed(done.state.AgentOf(node).table, port)
                        && SameBut(s.AgentOf(node).table, done.state.AgentOf(node).table, {port})))
  {
    hide Inv, Closed, SameBut, PortDeleted;
    if id in s.chains {
      OneOnPort(s, id);
      if s.AgentOf(s.chains[id].node).Up? {
        Matches(s, s.chains[id].node);
        OpensAsAsked(s.AgentOf(s.chains[id].node).table, s.chains[id].port, "", TCP, true, false);
      }
    }
  }

  lemma OneOnPort(s: D.State, id: nat)
    requires id in s.chains
    ensures |D.RowsOn(s.chains, s.chains[id].node, s.chains[id].port)| == 1 <==> LastRow(s, id)
  {
    var sharing := D.RowsOn(s.chains, s.chains[id].node, s.chains[id].port);
    assert id in sharing;
    if |sharing| == 1 {
      OnlyElement(sharing, id);
      forall other | other in s.chains && other != id
        ensures s.chains[other].node != s.chains[id].node || s.chains[other].port != s.chains[id].port
      {
        assert other !in sharing;
      }
    } else {
      var other := AnotherElement(sharing, id);
    }
  }

  // ----- what an action makes of its reads

  /** Each read counts for itself: the deletion of a rule looks for its node after it has found the rule. */
  lemma RuleReads(seen: Reads, id: nat)
    ensures Plan(seen, DelRule(id)) ==
            if id !in seen.first.rules then []
            else
              var row := seen.first.rules[id];
              [DeletingRule(id, row.node, row.port, row.node in seen.second.nodes)]
  {
  }

  /** A change finds the rule first, and then judges by the chains there are. */
  lemma ChangeReads(seen: Reads, id: nat, r: D.ModifyRuleReq, a: Asked)
    requires id in seen.first.rules && AsksFor(seen.second, seen.first.rules[id], r, a)
    ensures var row := seen.first.rules[id];
            Plan(seen, ModifyRule(id, r)) ==
            [ChangingRule(id, row.node, row.port, a.port, a.remote, a.remote != row.remote, a.protocol,
                          if r.name == "" then None else Some(a.name), a.chain, a.calls)]
  {
  }

  /** A chain's addition finds its node, then sees that the address is free, then whether the port has rows. */
  lemma AdditionReads(seen: Reads, r: D.AddChainReq)
    requires Registered(seen.first, r.node) && (r.preferIpv6 ==> seen.first.nodes[r.node].ipv6.Some?)
    ensures var node := seen.first.nodes[r.node];
            var ip := if r.preferIpv6 then node.ipv6.value else node.ip;
            Plan(seen, AddChain(r)) ==
            if !AddressFree(seen.second, r.node, r.port, ip) then []
            else
              var row := D.ChainRow(r.node, r.port, ip, if r.protocol == Some(TLS) then TLS else TCP);
              [AddingChain(row, !OnPort(seen.third, r.node, r.port))]
  {
    hide D.Taken, D.RowsOn, OnPort, AddressFree;
    FreeOrTaken(seen.second, r.node, r.port, D.ChainIp(seen.first.nodes[r.node], r.preferIpv6));
    FirstOnPort(seen.third, r.node, r.port);
    assert r.protocol.Some? ==> r.protocol.value == TLS || r.protocol.value == TCP;
  }

  /** And its deletion finds the row, then counts the rows on its port, of which the row itself may be gone. */
  lemma DeletionReads(seen: Reads, id: nat, admin: bool)
    requires id in seen.first.chains
    ensures var row := seen.first.chains[id];
            var alone := exists only | only in seen.second.chains ::
              && LastRow(seen.second, only)
              && seen.second.chains[only].node == row.node && seen.second.chains[only].port == row.port;
            Plan(seen, DelChain(id, admin)) ==
            if alone || admin then [DeletingChain(id, row.node, row.port, alone)] else []
  {
    var row := seen.first.chains[id];
    var sharing := D.RowsOn(seen.second.chains, row.node, row.port);
    if |sharing| == 1 {
      var only :| only in sharing;
      OneOnPort(seen.second, only);
    }
    forall only | only in seen.second.chains && LastRow(seen.second, only)
                  && seen.second.chains[only].node == row.node && seen.second.chains[only].port == row.port
      ensures |sharing| == 1
    {
      OneOnPort(seen.second, only);
    }
  }

  // ----- nodes

  /** A new node is known but cannot be used until its agent registers; one that is there stays as it is. */
  lemma AddedNode(s: D.State, node: int)
    ensures var done := D.AddNode(s, node);
            && (done.ok <==> node !in s.nodes)
            && (!done.ok ==> done.state == s)
            && (done.ok ==> !Registered(done.state, node) && done.state.nodes.Keys == s.nodes.Keys + {node})
            && done.state == s.(nodes := done.state.nodes)
            && forall other | other in s.nodes :: done.state.nodes[other] == s.nodes[other]
  {
  }

  /** The addresses a registration stores, whatever else happens at the time. */
  lemma RegisteredNode(s: D.State, node: int, r: D.RegisterReq, peer: string, rulesRead: D.State, chainsRead: D.State)
    ensures var done := D.RegisterNode(s, node, r, peer, rulesRead, chainsRead);
            && (done.ok <==> node in s.nodes && s.AgentOf(node).Down?)
            && (!done.ok ==> done.state == s)
            && (done.ok ==>
                  var after := done.state.nodes[node];
                  && done.state.nodes == s.nodes[node := after]
                  && after.registered && after.ipv4 == r.ipv4 && after.ipv6 == Some(r.ipv6)
                  && (!r.preferIpv6 && r.ipv4 != "" ==> after.ip == r.ipv4)
                  && (r.preferIpv6 && r.ipv6 != "" ==> after.ip == r.ipv6)
                  && ((if r.preferIpv6 then r.ipv6 else r.ipv4) == "" ==> after.ip == peer)
                  && after.managerIp == (if r.managerIp != "" then r.managerIp else after.ip)
                  && after.port == (if r.port != 0 then r.port else 8123))
  {
  }

  predicate ListsRules(rules: map<nat, D.RuleRow>, node: int, k: nat, listed: seq<RuleVO>) {
    && (forall id | id in rules && id < k && rules[id].node == node ::
          RuleVO(rules[id].port, rules[id].remote, rules[id].protocol) in listed)
    && (forall vo | vo in listed :: exists id | id in rules && id < k ::
          rules[id].node == node && vo == RuleVO(rules[id].port, rules[id].remote, rules[id].protocol))
  }

  predicate ListsChains(chains: map<nat, D.ChainRow>, node: int, k: nat, listed: seq<ChainVO>) {
    && (forall id | id in chains && id < k && chains[id].node == node ::
          ChainVO(chains[id].port, chains[id].protocol) in listed)
    && (forall vo | vo in listed :: exists id | id in chains && id < k ::
          chains[id].node == node && vo == ChainVO(chains[id].port, chains[id].protocol))
  }

  lemma {:induction false} SnapListsRules(rules: map<nat, D.RuleRow>, node: int, k: nat)
    ensures ListsRules(rules, node, k, D.SnapRules(rules, node, k))
  {
    if k > 0 {
      SnapListsRules(rules, node, k - 1);
    }
  }

  lemma {:induction false} SnapListsChains(chains: map<nat, D.ChainRow>, node: int, k: nat)
    ensures ListsChains(chains, node, k, D.SnapChains(chains, node, k))
  {
    if k > 0 {
      SnapListsChains(chains, node, k - 1);
    }
  }

  /** What it hands the agent: the node's rules and chains at the moments they were read, with their protocols. */
  lemma RegisteredAgent(s: D.State, node: int, r: D.RegisterReq, peer: string, rulesRead: D.State, chainsRead: D.State)
    requires D.RegisterNode(s, node, r, peer, rulesRead, chainsRead).ok
    ensures var after := D.RegisterNode(s, node, r, peer, rulesRead, chainsRead).state;
            && after.AgentOf(node).Starting? && after.agents == s.agents[node := after.AgentOf(node)]
            && ListsRules(rulesRead.rules, node, rulesRead.nextRule, after.AgentOf(node).rules)
            && ListsChains(chainsRead.chains, node, chainsRead.nextChain, after.AgentOf(node).chains)
            && after.rules == s.rules && after.chains == s.chains
  {
    SnapListsRules(rulesRead.rules, node, rulesRead.nextRule);
    SnapListsChains(chainsRead.chains, node, chainsRead.nextChain);
  }

  /** A starting agent opens everything it was handed, each rule under its own protocol, or is down again. */
  lemma StartedAgent(s: D.State, node: int, busy: set<int>, udp: bool)
    requires s.AgentOf(node).Starting?
    ensures var chains, rules := s.AgentOf(node).chains, s.AgentOf(node).rules;
            var done := D.InitAgent(s, node, busy, udp);
            var after := done.state.AgentOf(node);
            && done.state == s.(agents := s.agents[node := after])
            && (!done.ok ==> after.Down?)
            && (done.ok ==>
                  && after.Up? && after.udp == udp
                  && (forall i | 0 <= i < |chains| :: ChainServed(after.table, chains[i].port, udp))
                  && (forall i | 0 <= i < |rules| ::
                        RuleServed(after.table, rules[i].port, rules[i].remote, rules[i].protocol, udp)))
  {
    hide AgentStarted, RuleServed, ChainServed;
    if D.InitAgent(s, node, busy, udp).ok {
      AllServed(s.AgentOf(node).chains, s.AgentOf(node).rules, busy, udp);
    }
  }
}
