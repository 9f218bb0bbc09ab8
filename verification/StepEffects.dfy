/**
 What one step of one action does to the match between agents and rows: the call, with the row it leads to, or
 the row of an action that does not call. Each is exact, whatever has happened since the action read its rows.
 */
module StepEffects {
  import opened Wrappers
  import opened PortTable
  import opened Refinement
  import opened InFlight
  import D = Deployment

  /** The rows and agents after a call, with the row it leads to. */
  function AfterCall(v: D.State, task: Task, fate: Fate, bindable: bool): D.State {
    var called := Called(v, task, fate, bindable);
    if called.ok then Written(Reserved(called.state, task), task, FreshId(v, task)) else called.state
  }

  function AfterUncalled(v: D.State, task: Task): D.State {
    Written(Reserved(v, task), task, FreshId(v, task))
  }

  /** Rows never change nodes, and chain rows never change at all. */
  predicate Fits(v: D.State, task: Task) {
    match task
    case DeletingRule(id, node, _, _) => id in v.rules ==> v.rules[id].node == node
    case ChangingRule(id, node, oldPort, port, _, setsRemote, _, _, _, calls) =>
      (id in v.rules ==> v.rules[id].node == node) && (!calls ==> port == oldPort && !setsRemote)
    case DeletingChain(id, node, port, _) =>
      id in v.chains ==> v.chains[id].node == node && v.chains[id].port == port
    case _ => true
  }

  /** Only one node's agent or rows have changed, so only that node needs looking at. */
  lemma OnlyNode(v: D.State, after: D.State, node: int)
    requires Inv(v) && RowsOk(after) && Registered(after)
    requires forall other | other != node ::
      && after.AgentOf(other) == v.AgentOf(other)
      && RulesAt(after.rules, other) == RulesAt(v.rules, other)
      && ChainsAt(after.chains, other) == ChainsAt(v.chains, other)
    ensures Inv(after) <==> Refined(after, node)
  {
    forall other | other in after.agents && other != node ensures Refined(after, other) {
      assert other in v.agents ==> Refined(v, other);
    }
    if Inv(after) && node !in after.agents {
      assert after.AgentOf(node).Down?;
    }
  }

  /** With one agent's table changed, the match is between that table and the rows of its node. */
  lemma TableMatches(v: D.State, after: D.State, node: int)
    requires Inv(v) && RowsOk(after) && after.nodes == v.nodes
    requires v.AgentOf(node).Up? && after.AgentOf(node).Up? && Paired(after.AgentOf(node).table)
    requires after.agents == v.agents[node := after.AgentOf(node)]
    requires forall other | other != node ::
      && RulesAt(after.rules, other) == RulesAt(v.rules, other)
      && ChainsAt(after.chains, other) == ChainsAt(v.chains, other)
    ensures var t := after.AgentOf(node).table;
            Inv(after) <==> RulesIn(t) == RulesAt(after.rules, node) && ChainsIn(t) == ChainsAt(after.chains, node)
  {
    OnlyNode(v, after, node);
  }

  lemma Matches(v: D.State, node: int)
    requires Inv(v) && v.AgentOf(node).Up?
    ensures var t := v.AgentOf(node).table;
            && RowsOk(v) && Paired(t) && RulesIn(t) == RulesAt(v.rules, node) && ChainsIn(t) == ChainsAt(v.chains, node)
  {
    assert Refined(v, node);
  }

  // ----- adding

  lemma AddingRuleCall(v: D.State, row: D.RuleRow, fate: Fate, bindable: bool)
    requires Inv(v) && v.AgentOf(row.node).Up? && !fate.NotDelivered?
    ensures var opens := bindable && Tcp(row.port) !in v.AgentOf(row.node).table;
            Inv(AfterCall(v, AddingRule(row), fate, bindable)) <==> !(opens && fate.ReplyLost?)
  {
    var agent, after := v.AgentOf(row.node), AfterCall(v, AddingRule(row), fate, bindable);
    Matches(v, row.node);
    if bindable && Tcp(row.port) !in agent.table {
      FreePort(v, row.node, row.port);
      assert RowsOk(after);
      hide Inv, RowsOk, Paired, Entered;
      RuleAddedEffect(agent.table, row.port, row.remote, row.protocol, bindable, agent.udp);
      if fate.Answered? {
        forall node ensures RulesAt(after.rules, node) ==
                            RulesAt(v.rules, node) + (if row.node == node then {(row.port, row.remote)} else {}) {
          RuleInserted(v.rules, v.nextRule, row, node);
        }
      }
      TableMatches(v, after, row.node);
      assert (row.port, row.remote) !in RulesAt(v.rules, row.node);
    } else {
      assert after.agents == v.agents;
    }
  }

  lemma AddingChainCall(v: D.State, row: D.ChainRow, fate: Fate, bindable: bool)
    requires Inv(v) && v.AgentOf(row.node).Up? && !fate.NotDelivered?
    ensures var opens := bindable && Tcp(row.port) !in v.AgentOf(row.node).table;
            Inv(AfterCall(v, AddingChain(row, true), fate, bindable)) <==> !(opens && fate.ReplyLost?)
  {
    var agent, after := v.AgentOf(row.node), AfterCall(v, AddingChain(row, true), fate, bindable);
    Matches(v, row.node);
    if bindable && Tcp(row.port) !in agent.table {
      FreePort(v, row.node, row.port);
      assert RowsOk(after);
      hide Inv, RowsOk, Paired, Entered;
      ChainAddedEffect(agent.table, row.port, bindable, agent.udp);
      if fate.Answered? {
        forall node ensures ChainsAt(after.chains, node) ==
                            ChainsAt(v.chains, node) + (if row.node == node then {row.port} else {}) {
          ChainInserted(v.chains, v.nextChain, row, node);
        }
      }
      TableMatches(v, after, row.node);
      assert row.port !in ChainsAt(v.chains, row.node);
    } else {
      assert after.agents == v.agents;
    }
  }

  /** A further chain row on a port fits when the port is a chain's by then and no other row has its address. */
  predicate Shares(v: D.State, row: D.ChainRow) {
    && !D.Taken(v.chains, row.node, row.port, row.ip)
    && (forall id | id in v.rules && v.rules[id].node == row.node :: v.rules[id].port != row.port)
    && (!v.AgentOf(row.node).Down? ==> row.port in ChainsAt(v.chains, row.node))
  }

  lemma AddingChainUncalled(v: D.State, row: D.ChainRow)
    requires Inv(v)
    ensures Inv(AfterUncalled(v, AddingChain(row, false))) <==> Shares(v, row)
  {
    var after := AfterUncalled(v, AddingChain(row, false));
    assert after.chains[v.nextChain] == row;
    assert forall id | id in v.chains :: id in after.chains && after.chains[id] == v.chains[id];
    if RowsOk(after) {
      forall node ensures ChainsAt(after.chains, node) ==
                          ChainsAt(v.chains, node) + (if row.node == node then {row.port} else {}) {
        ChainInserted(v.chains, v.nextChain, row, node);
      }
      OnlyNode(v, after, row.node);
      assert Refined(v, row.node);
    }
    assert RowsOk(after) <==>
      && !D.Taken(v.chains, row.node, row.port, row.ip)
      && (forall id | id in v.rules && v.rules[id].node == row.node :: v.rules[id].port != row.port);
  }

  // ----- deleting

  /** The rule has moved to another port since the action read it, or is gone and its old port is in use again. */
  predicate DeletesAmiss(v: D.State, id: nat, node: int, port: int)
    requires v.AgentOf(node).Up?
  {
    if id in v.rules then v.rules[id].port != port else Tcp(port) in v.AgentOf(node).table
  }

  lemma DeletingRuleCall(v: D.State, task: Task, fate: Fate, bindable: bool)
    requires Inv(v) && task.DeletingRule? && Fits(v, task) && v.AgentOf(task.node).Up? && !fate.NotDelivered?
    ensures Inv(AfterCall(v, task, fate, bindable)) <==>
            !(if fate.Answered? then DeletesAmiss(v, task.id, task.node, task.port)
              else Tcp(task.port) in v.AgentOf(task.node).table)
  {
    var agent, after := v.AgentOf(task.node), AfterCall(v, task, fate, bindable);
    assert Refined(v, task.node);
    PortDeletedEffect(agent.table, task.port);
    if task.id in v.rules {
      RuleIsOpen(v, task.id);
      forall node {
        RuleRemoved(v.rules, task.id, node);
      }
    } else {
      assert v.rules - {task.id} == v.rules;
    }
    OnlyNode(v, after, task.node);
    PortGone(agent.table, task.port);
  }

  /** Deleting a port changes what a table serves exactly when something is open on it. */
  lemma PortGone(t: Table, port: int)
    requires Paired(t)
    ensures RulesIn(PortDeleted(t, port)) == RulesIn(t) && ChainsIn(PortDeleted(t, port)) == ChainsIn(t) <==>
            Tcp(port) !in t
  {
    PortDeletedEffect(t, port);
    if Tcp(port) in t {
      InProjections(t, port, t[Tcp(port)].remote);
    }
  }

  /** A refused deletion takes the row away all the same; an agent that is starting has been told of it. */
  lemma DeletingRuleRefused(v: D.State, task: Task, fate: Fate, bindable: bool)
    requires Inv(v) && task.DeletingRule? && Fits(v, task) && !v.AgentOf(task.node).Up? && !fate.NotDelivered?
    ensures Inv(AfterCall(v, task, fate, bindable)) <==> !(v.AgentOf(task.node).Starting? && task.id in v.rules)
  {
    RuleRowGone(v, task.id, task.node);
  }

  lemma RuleRowGone(v: D.State, id: nat, node: int)
    requires Inv(v) && (id in v.rules ==> v.rules[id].node == node)
    ensures Inv(v.(rules := v.rules - {id})) <==> v.AgentOf(node).Down? || id !in v.rules
  {
    var after := v.(rules := v.rules - {id});
    assert Refined(v, node);
    if id in v.rules {
      forall other {
        RuleRemoved(v.rules, id, other);
      }
      OnlyNode(v, after, node);
      assert (v.rules[id].port, v.rules[id].remote) in RulesAt(v.rules, node);
    } else {
      assert v.rules - {id} == v.rules;
    }
  }

  /** The row is the only one by then that keeps its port a chain's. */
  predicate LastOn(v: D.State, id: nat)
    requires id in v.chains
  {
    |D.RowsOn(v.chains, v.chains[id].node, v.chains[id].port)| == 1
  }

  lemma ChainRowGone(v: D.State, id: nat, node: int)
    requires Inv(v) && (id in v.chains ==> v.chains[id].node == node)
    ensures Inv(v.(chains := v.chains - {id})) <==> v.AgentOf(node).Down? || id !in v.chains || !LastOn(v, id)
  {
    var after := v.(chains := v.chains - {id});
    assert Refined(v, node);
    if id in v.chains {
      forall other {
        ChainRemoved(v.chains, id, other);
      }
      OnlyNode(v, after, node);
      assert v.chains[id].port in ChainsAt(v.chains, node);
    } else {
      assert v.chains - {id} == v.chains;
    }
  }

  lemma DeletingChainCall(v: D.State, task: Task, fate: Fate, bindable: bool)
    requires Inv(v) && task.DeletingChain? && Fits(v, task) && v.AgentOf(task.node).Up? && !fate.NotDelivered?
    ensures Inv(AfterCall(v, task, fate, bindable)) <==>
            if fate.Answered? && task.id in v.chains then LastOn(v, task.id)
            else Tcp(task.port) !in v.AgentOf(task.node).table
  {
    var agent, after := v.AgentOf(task.node), AfterCall(v, task, fate, bindable);
    assert Refined(v, task.node);
    PortDeletedEffect(agent.table, task.port);
    if task.id in v.chains {
      ChainIsOpen(v, task.id);
      forall node {
        ChainRemoved(v.chains, task.id, node);
      }
    } else {
      assert v.chains - {task.id} == v.chains;
    }
    OnlyNode(v, after, task.node);
    PortGone(agent.table, task.port);
  }

  // ----- changing

  /** The call opens the port it asks for. */
  predicate Opens(v: D.State, task: Task, bindable: bool)
    requires task.ChangingRule? && v.AgentOf(task.node).Up?
  {
    bindable && (task.port == task.oldPort || Tcp(task.port) !in v.AgentOf(task.node).table)
  }

  /** The rule is still on the port the action read, and its row will have the address the agent was given. */
  predicate Follows(v: D.State, task: Task)
    requires task.ChangingRule?
  {
    task.id in v.rules && v.rules[task.id].port == task.oldPort && Changed(v.rules[task.id], task).remote == task.remote
  }

  /** The call asks for what the port serves already, and the row keeps its port and address. */
  predicate Idle(v: D.State, task: Task)
    requires task.ChangingRule? && v.AgentOf(task.node).Up?
  {
    && task.port == task.oldPort
    && (task.oldPort, task.remote) in RulesIn(v.AgentOf(task.node).table)
    && (task.id in v.rules ==> Changed(v.rules[task.id], task).remote == v.rules[task.id].remote)
  }

  /** The call ends with the agent serving something other than the rows will say. */
  predicate ChangesAmiss(v: D.State, task: Task, fate: Fate, bindable: bool)
    requires task.ChangingRule? && v.AgentOf(task.node).Up?
  {
    if !Opens(v, task, bindable) then Tcp(task.oldPort) in v.AgentOf(task.node).table
    else if fate.Answered? then !Follows(v, task) && !Idle(v, task)
    else task.port != task.oldPort || (task.oldPort, task.remote) !in RulesIn(v.AgentOf(task.node).table)
  }

  /** The table after closing one port and opening another. */
  lemma MovedTable(v: D.State, task: Task, bindable: bool)
    requires Inv(v) && task.ChangingRule? && v.AgentOf(task.node).Up?
    ensures var t := v.AgentOf(task.node).table;
            var (moved, content) := Handled(t, task, bindable, v.AgentOf(task.node).udp);
            && (content <==> Opens(v, task, bindable))
            && Paired(moved) && ChainsIn(moved) == ChainsIn(t) - {task.oldPort}
            && RulesIn(moved) == (set pair | pair in RulesIn(t) && pair.0 != task.oldPort)
                                 + (if content then {(task.port, task.remote)} else {})
  {
    var agent := v.AgentOf(task.node);
    assert Refined(v, task.node);
    PortDeletedEffect(agent.table, task.oldPort);
    DeleteIsExact(agent.table, task.oldPort);
    var freed := PortDeleted(agent.table, task.oldPort);
    if Opens(v, task, bindable) {
      RuleAddedEffect(freed, task.port, task.remote, task.protocol, bindable, agent.udp);
    }
  }

  /** The rows after a change. */
  lemma ChangedRows(v: D.State, task: Task)
    requires Inv(v) && task.ChangingRule? && Fits(v, task)
    requires task.port != task.oldPort ==> v.AgentOf(task.node).Up? && Tcp(task.port) !in v.AgentOf(task.node).table
    ensures var after := Written(v, task, 0);
            && RowsOk(after)
            && forall node :: RulesAt(after.rules, node) ==
                 if task.id in v.rules && node == task.node then
                   var row, changed := v.rules[task.id], Changed(v.rules[task.id], task);
                   RulesAt(v.rules, node) - {(row.port, row.remote)} + {(changed.port, changed.remote)}
                 else RulesAt(v.rules, node)
  {
    if task.id in v.rules {
      var changed := Changed(v.rules[task.id], task);
      forall node {
        RuleReplaced(v.rules, task.id, changed, node);
      }
      if task.port != task.oldPort {
        FreePort(v, task.node, task.port);
      }
    }
  }

  /** When the pairs a table serves after a move are the pairs the rows list after a change. */
  lemma PairsMatch(pairs: set<(int, string)>, oldPort: int, port: int, remote: string,
                   row: Option<(int, string)>, changed: (int, string))
    requires forall a, b | a in pairs && b in pairs && a.0 == b.0 :: a == b
    requires port == oldPort || forall a | a in pairs :: a.0 != port
    requires row.Some? ==> row.value in pairs && changed.0 == if port != oldPort then port else row.value.0
    ensures var moved := (set a | a in pairs && a.0 != oldPort) + {(port, remote)};
            var rows := if row.Some? then pairs - {row.value} + {changed} else pairs;
            moved == rows <==>
              || (row.Some? && row.value.0 == oldPort && changed.1 == remote)
              || (port == oldPort && (oldPort, remote) in pairs && (row.Some? ==> changed == row.value))
  {
    var moved := (set a | a in pairs && a.0 != oldPort) + {(port, remote)};
    var rows := if row.Some? then pairs - {row.value} + {changed} else pairs;
    assert (port, remote) in moved;
    if row.None? {
      assert (oldPort, remote) in pairs && port == oldPort ==> moved == pairs;
    } else if row.value.0 == oldPort {
      assert changed in rows;
      assert changed == (port, remote) ==> moved == rows;
    } else {
      assert row.value in moved;
      assert changed in rows;
      assert port == oldPort && (oldPort, remote) in pairs && changed == row.value ==> moved == pairs == rows;
    }
  }

  /** The action ends with its call: the rows stay as they are. */
  lemma ChangeNotWritten(v: D.State, task: Task, fate: Fate, bindable: bool)
    requires Inv(v) && task.ChangingRule? && Fits(v, task) && v.AgentOf(task.node).Up? && !fate.NotDelivered?
    requires !(Opens(v, task, bindable) && fate.Answered?)
    ensures Inv(AfterCall(v, task, fate, bindable)) <==> !ChangesAmiss(v, task, fate, bindable)
  {
    hide Inv, RowsOk, Paired, Handled, Serves;
    var agent, after := v.AgentOf(task.node), AfterCall(v, task, fate, bindable);
    Matches(v, task.node);
    MovedTable(v, task, bindable);
    TableMatches(v, after, task.node);
    ServedPairs(v, task.node);
    if Opens(v, task, bindable) {
      PairsMatch(RulesIn(agent.table), task.oldPort, task.port, task.remote, None, (0, ""));
    } else {
      PortGone(agent.table, task.oldPort);
      PortDeletedEffect(agent.table, task.oldPort);
    }
  }

  lemma ChangeWritten(v: D.State, task: Task, bindable: bool)
    requires Inv(v) && task.ChangingRule? && Fits(v, task) && v.AgentOf(task.node).Up? && Opens(v, task, bindable)
    ensures Inv(AfterCall(v, task, Answered, bindable)) <==> Follows(v, task) || Idle(v, task)
  {
    hide Inv, RowsOk, Paired, Handled, Serves;
    var agent, after := v.AgentOf(task.node), AfterCall(v, task, Answered, bindable);
    Matches(v, task.node);
    MovedTable(v, task, bindable);
    ChangedRows(v, task);
    TableMatches(v, after, task.node);
    ServedPairs(v, task.node);
    if task.id in v.rules {
      RuleIsOpen(v, task.id);
      var row, changed := v.rules[task.id], Changed(v.rules[task.id], task);
      PairsMatch(RulesIn(agent.table), task.oldPort, task.port, task.remote,
                 Some((row.port, row.remote)), (changed.port, changed.remote));
    } else {
      PairsMatch(RulesIn(agent.table), task.oldPort, task.port, task.remote, None, (0, ""));
    }
  }

  lemma ChangingRuleCall(v: D.State, task: Task, fate: Fate, bindable: bool)
    requires Inv(v) && task.ChangingRule? && Fits(v, task) && v.AgentOf(task.node).Up? && !fate.NotDelivered?
    ensures Inv(AfterCall(v, task, fate, bindable)) <==> !ChangesAmiss(v, task, fate, bindable)
  {
    hide Inv, AfterCall, Follows, Idle, Opens;
    if Opens(v, task, bindable) && fate.Answered? {
      ChangeWritten(v, task, bindable);
    } else {
      ChangeNotWritten(v, task, fate, bindable);
    }
  }

  /** A table serves each port at most once, and rules and chains apart. */
  lemma ServedPairs(v: D.State, node: int)
    requires Inv(v) && v.AgentOf(node).Up?
    ensures var t := v.AgentOf(node).table;
            && (forall a, b | a in RulesIn(t) && b in RulesIn(t) && a.0 == b.0 :: a == b)
            && (forall a | a in RulesIn(t) :: Tcp(a.0) in t && a.0 !in ChainsIn(t))
            && RulesIn(t) == RulesAt(v.rules, node)
  {
    assert Refined(v, node);
  }

  lemma ChangingRuleUncalled(v: D.State, task: Task)
    requires Inv(v) && task.ChangingRule? && Fits(v, task) && !task.calls
    ensures Inv(AfterUncalled(v, task))
  {
    if task.id in v.rules {
      UnmovedRowKeeps(v, task.id, Changed(v.rules[task.id], task));
    }
  }

  // ----- any task

  /** The call leaves the agent serving something other than the rows will say. */
  predicate CallBreaks(v: D.State, task: Task, fate: Fate, bindable: bool) {
    if fate.NotDelivered? || v.AgentOf(task.Node()).Down? then false
    else if v.AgentOf(task.Node()).Starting? then task.DeletingRule? && task.id in v.rules
    else
      var t := v.AgentOf(task.Node()).table;
      match task
      case AddingRule(row) => fate.ReplyLost? && bindable && Tcp(row.port) !in t
      case AddingChain(row, _) => fate.ReplyLost? && bindable && Tcp(row.port) !in t
      case DeletingRule(id, node, port, _) =>
        if fate.Answered? then DeletesAmiss(v, id, node, port) else Tcp(port) in t
      case DeletingChain(id, _, port, _) => if fate.Answered? && id in v.chains then !LastOn(v, id) else Tcp(port) in t
      case ChangingRule(_, _, _, _, _, _, _, _, _, _) => ChangesAmiss(v, task, fate, bindable)
  }

  lemma CallKeeps(v: D.State, task: Task, fate: Fate, bindable: bool)
    requires Inv(v) && Fits(v, task) && task.Calls()
    ensures Inv(AfterCall(v, task, fate, bindable)) <==> !CallBreaks(v, task, fate, bindable)
  {
    hide Inv, ChangesAmiss, DeletesAmiss, Handled, Written;
    if !fate.NotDelivered? {
      if v.AgentOf(task.Node()).Up? {
        match task
        case AddingRule(row) => AddingRuleCall(v, row, fate, bindable);
        case AddingChain(row, _) => AddingChainCall(v, row, fate, bindable);
        case DeletingRule(_, _, _, _) => DeletingRuleCall(v, task, fate, bindable);
        case DeletingChain(_, _, _, _) => DeletingChainCall(v, task, fate, bindable);
        case ChangingRule(_, _, _, _, _, _, _, _, _, _) => ChangingRuleCall(v, task, fate, bindable);
      } else if task.DeletingRule? {
        DeletingRuleRefused(v, task, fate, bindable);
      }
    }
  }

  /** A row written on the strength of an earlier read no longer goes with what the agent serves. */
  predicate UncalledBreaks(v: D.State, task: Task) {
    match task
    case AddingRule(_) => false
    case AddingChain(row, _) => !Shares(v, row)
    case DeletingRule(id, node, _, _) => !v.AgentOf(node).Down? && id in v.rules
    case DeletingChain(id, node, _, _) => !v.AgentOf(node).Down? && id in v.chains && LastOn(v, id)
    case ChangingRule(_, _, _, _, _, _, _, _, _, _) => false
  }

  lemma UncalledKeeps(v: D.State, task: Task)
    requires Inv(v) && Fits(v, task) && !task.Calls()
    ensures Inv(AfterUncalled(v, task)) <==> !UncalledBreaks(v, task)
  {
    hide Inv, Shares, LastOn;
    match task
    case AddingChain(row, _) => AddingChainUncalled(v, row);
    case DeletingRule(id, node, _, _) => RuleRowGone(v, id, node);
    case DeletingChain(id, node, _, _) => ChainRowGone(v, id, node);
    case ChangingRule(_, _, _, _, _, _, _, _, _, _) => ChangingRuleUncalled(v, task);
  }
}
