/**
 The controller's actions when nothing comes between their steps: the exact conditions under which one of them ends
 the match between agents and rows, from those for its steps.
 */
module Undisturbed {
  import opened Wrappers
  import opened Text
  import opened PortTable
  import opened Refinement
  import opened InFlight
  import opened StepEffects
  import D = Deployment

  lemma PerformedKeeps(s: D.State, task: Task, lost: bool, bindable: bool)
    requires Inv(s) && Fits(s, task)
    ensures Inv(Performed(s, task, lost, bindable).state) <==>
            !(if task.Calls() then CallBreaks(s, task, if lost then NotDelivered else Answered, bindable)
              else UncalledBreaks(s, task))
  {
    hide Inv, Fits, CallBreaks, UncalledBreaks, Called, Written;
    if task.Calls() {
      CallKeeps(s, task, if lost then NotDelivered else Answered, bindable);
    } else {
      UncalledKeeps(s, task);
    }
  }

  /** The call arrives at an agent that is there to answer it. */
  predicate Served(s: D.State, node: int, lost: bool) {
    s.AgentOf(node).Up? && !lost
  }

  // ----- rules

  lemma AddRuleKeeps(s: D.State, r: D.AddRuleReq, lost: bool, bindable: bool)
    requires Inv(s)
    ensures Inv(Alone(s, AddRule(r), lost, bindable).state)
  {
    hide Inv, Performed;
    PerformedKeeps(s, AddingRule(r.Row()), lost, bindable);
  }

  /** The agent has been told of the rule but refuses the call: it will open the port all the same. */
  predicate DeletesUnderStart(s: D.State, id: nat, lost: bool) {
    id in s.rules && s.AgentOf(s.rules[id].node).Starting? && !lost
  }

  lemma DelRuleKeeps(s: D.State, id: nat, lost: bool)
    requires Inv(s)
    ensures Inv(Alone(s, DelRule(id), lost, true).state) <==> !DeletesUnderStart(s, id, lost)
  {
    var nodeThere := id in s.rules && s.rules[id].node in s.nodes;
    assert id in s.rules && !nodeThere ==> s.AgentOf(s.rules[id].node).Down?;
    hide Inv, Performed;
    if id in s.rules {
      PerformedKeeps(s, DeletingRule(id, s.rules[id].node, s.rules[id].port, nodeThere), lost, true);
    }
  }

  /** The call is made, but the agent can only close the old port. */
  predicate StrandsRule(s: D.State, id: nat, r: D.ModifyRuleReq, lost: bool, bindable: bool) {
    && id in s.rules
    && (D.MovesChain(s, s.rules[id], r) ==> r.chain in s.chains)
    && D.NeedsAgent(s, s.rules[id], r)
    && Served(s, s.rules[id].node, lost)
    && !CanReopen(s, s.rules[id].node, s.rules[id].port, D.NewPort(s.rules[id], r), bindable)
  }

  /** The port a rule moves to can be opened once the old one is closed. */
  predicate CanReopen(s: D.State, node: int, oldPort: int, port: int, bindable: bool)
    requires s.AgentOf(node).Up?
  {
    bindable && (port == oldPort || Tcp(port) !in s.AgentOf(node).table)
  }

  /** An undisturbed change finds its rule where it read it, so all that can go wrong is the new port. */
  lemma FreshChange(s: D.State, task: Task, bindable: bool)
    requires Inv(s) && task.ChangingRule? && task.id in s.rules
    requires var row := s.rules[task.id];
             task.node == row.node && task.oldPort == row.port && Changed(row, task).remote == task.remote
    requires s.AgentOf(task.node).Up?
    ensures CallBreaks(s, task, Answered, bindable) <==>
            !CanReopen(s, task.node, task.oldPort, task.port, bindable)
  {
    RuleIsOpen(s, task.id);
  }

  lemma ModifyRuleKeeps(s: D.State, id: nat, r: D.ModifyRuleReq, lost: bool, bindable: bool)
    requires Inv(s)
    ensures Inv(Alone(s, ModifyRule(id, r), lost, bindable).state) <==> !StrandsRule(s, id, r, lost, bindable)
  {
    hide Inv, Performed, CanReopen;
    var plan := Plan(AtOnce(s), ModifyRule(id, r));
    if plan != [] {
      var task := plan[0];
      PerformedKeeps(s, task, lost, bindable);
      if Served(s, task.node, lost) && task.calls {
        FreshChange(s, task, bindable);
      }
    }
  }

  // ----- the bulk change

  /** The selection of a bulk change, and what becomes of each rule's call. */
  datatype Bulk = Bulk(ids: set<nat>, host: string, lost: set<nat>, unbindable: set<nat>)

  function Below(s: D.State, r: Bulk, k: nat): D.Outcome {
    BulkAlone(s, r.ids, r.host, r.lost, r.unbindable, k)
  }

  predicate Selected(s: D.State, r: Bulk, id: nat) {
    id in r.ids && id in s.rules
  }

  /** The agent is called for this rule: a new host needs an address with a port to keep. */
  predicate CallsFor(s: D.State, r: Bulk, id: nat)
    requires id in s.rules
  {
    (r.host == "" || ':' in s.rules[id].remote) && Served(s, s.rules[id].node, id in r.lost)
  }

  /** No selected rule below `k` ends the loop. */
  predicate ReachesTo(s: D.State, r: Bulk, k: nat) {
    forall id: nat | id < k && Selected(s, r, id) :: CallsFor(s, r, id) && id !in r.unbindable
  }

  /** The loop reaches a rule whose agent can close its port but not open it again. */
  predicate StrandsSome(s: D.State, r: Bulk, k: nat) {
    exists id: nat | id < k && Selected(s, r, id) :: ReachesTo(s, r, id) && CallsFor(s, r, id) && id in r.unbindable
  }

  /** The rules from `k` on are untouched, and no agent has come or gone. */
  ghost predicate OnlyBelow(s: D.State, after: D.State, k: nat) {
    && after.rules.Keys == s.rules.Keys
    && (forall id | id in s.rules && id >= k :: after.rules[id] == s.rules[id])
    && (forall node :: after.AgentOf(node).Up? <==> s.AgentOf(node).Up?)
  }

  lemma HostChangeFrame(s: D.State, row: D.RuleRow, id: nat, host: string, lost: bool, bindable: bool)
    requires id in s.rules && D.Rehosted(row.remote, host).Some?
    ensures OnlyBelow(s, Performed(s, HostChange(row, id, host), lost, bindable).state, id + 1)
  {
    hide RuleMoved, D.Rehosted;
  }

  lemma {:induction false} BelowFrame(s: D.State, r: Bulk, k: nat)
    ensures OnlyBelow(s, Below(s, r, k).state, k)
  {
    hide Performed, BulkAlone, D.Rehosted;
    if k == 0 {
      NothingBelow(s, r);
    } else {
      BelowFrame(s, r, k - 1);
      BulkOneMore(s, r.ids, r.host, r.lost, r.unbindable, k - 1);
      var before := Below(s, r, k - 1).state;
      if k - 1 in s.rules && D.Rehosted(s.rules[k - 1].remote, r.host).Some? {
        HostChangeFrame(before, s.rules[k - 1], k - 1, r.host, k - 1 in r.lost, k - 1 !in r.unbindable);
      }
    }
  }

  lemma NothingBelow(s: D.State, r: Bulk)
    ensures Below(s, r, 0) == D.Outcome(s, true)
  {
  }

  lemma RehostedWhen(remote: string, host: string)
    ensures D.Rehosted(remote, host).Some? <==> host == "" || ':' in remote
  {
    SplitPieces(remote, ':');
  }

  /** One rule's turn, told from the state before the loop. */
  lemma OneTurnKeeps(s: D.State, before: D.State, r: Bulk, id: nat)
    requires OnlyBelow(s, before, id) && Inv(before) && id in s.rules && D.Rehosted(s.rules[id].remote, r.host).Some?
    ensures var after := Performed(before, HostChange(s.rules[id], id, r.host), id in r.lost, id !in r.unbindable);
            && (after.ok <==> CallsFor(s, r, id) && id !in r.unbindable)
            && (Inv(after.state) <==> !(CallsFor(s, r, id) && id in r.unbindable))
  {
    var task := HostChange(s.rules[id], id, r.host);
    hide Inv, D.Rehosted, RuleMoved;
    RehostedWhen(s.rules[id].remote, r.host);
    PerformedKeeps(before, task, id in r.lost, id !in r.unbindable);
    if CallsFor(s, r, id) {
      FreshChange(before, task, id !in r.unbindable);
      MovedTable(before, task, id !in r.unbindable);
    }
  }

  lemma {:induction false} ModifyRulesKeeps(s: D.State, r: Bulk, k: nat)
    requires Inv(s)
    ensures Below(s, r, k).ok <==> ReachesTo(s, r, k)
    ensures Inv(Below(s, r, k).state) <==> !StrandsSome(s, r, k)
  {
    hide Inv, Performed, BulkAlone, D.Rehosted;
    if k == 0 {
      NothingBelow(s, r);
    } else {
      var id := k - 1;
      ModifyRulesKeeps(s, r, id);
      BelowFrame(s, r, id);
      LastSelected(s, r, k);
      BulkOneMore(s, r.ids, r.host, r.lost, r.unbindable, id);
      var before := Below(s, r, id);
      if before.ok && Selected(s, r, id) {
        NoneStrandedBefore(s, r, id);
        RehostedWhen(s.rules[id].remote, r.host);
        if D.Rehosted(s.rules[id].remote, r.host).Some? {
          OneTurnKeeps(s, before.state, r, id);
        }
      }
    }
  }

  lemma NoneStrandedBefore(s: D.State, r: Bulk, k: nat)
    requires ReachesTo(s, r, k)
    ensures !StrandsSome(s, r, k)
  {
  }

  lemma LastSelected(s: D.State, r: Bulk, k: nat)
    requires k > 0
    ensures var id := k - 1;
            && (ReachesTo(s, r, k) <==>
                  ReachesTo(s, r, id) && (Selected(s, r, id) ==> CallsFor(s, r, id) && id !in r.unbindable))
            && (StrandsSome(s, r, k) <==>
                  StrandsSome(s, r, id) ||
                  (Selected(s, r, id) && ReachesTo(s, r, id) && CallsFor(s, r, id) && id in r.unbindable))
  {
  }

  // ----- chains

  lemma AddChainKeeps(s: D.State, r: D.AddChainReq, lost: bool, bindable: bool)
    requires Inv(s)
    ensures Inv(Alone(s, AddChain(r), lost, bindable).state)
  {
    var plan := Plan(AtOnce(s), AddChain(r));
    if plan != [] {
      PerformedKeeps(s, plan[0], lost, bindable);
      if !plan[0].calls {
        SharesPort(s, plan[0].chainRow);
      }
    }
  }

  lemma SharesPort(s: D.State, row: D.ChainRow)
    requires Inv(s) && D.RowsOn(s.chains, row.node, row.port) != {}
    requires !D.Taken(s.chains, row.node, row.port, row.ip)
    ensures Shares(s, row)
  {
    var id :| id in D.RowsOn(s.chains, row.node, row.port);
    assert s.chains[id].port in ChainsAt(s.chains, row.node);
  }

  lemma DelChainKeeps(s: D.State, id: nat, admin: bool, lost: bool)
    requires Inv(s)
    ensures Inv(Alone(s, DelChain(id, admin), lost, true).state)
  {
    hide Inv, Performed;
    var plan := Plan(AtOnce(s), DelChain(id, admin));
    if plan != [] {
      PerformedKeeps(s, plan[0], lost, true);
    }
  }

  // ----- what one action undoes

  /** Deleting a rule just added leaves rows and agents as they were; only its id is used up. */
  lemma AddThenDelete(s: D.State, r: D.AddRuleReq, lost: bool, bindable: bool)
    requires Inv(s) && Alone(s, AddRule(r), lost, bindable).ok
    ensures var added := Alone(s, AddRule(r), lost, bindable).state;
            && s.nextRule in added.rules && added.rules[s.nextRule] == r.Row()
            && Alone(added, DelRule(s.nextRule), false, true) == D.Outcome(s.(nextRule := s.nextRule + 1), true)
  {
    var added := Alone(s, AddRule(r), lost, bindable).state;
    assert Refined(s, r.node);
    assert added.rules - {s.nextRule} == s.rules;
    assert PortDeleted(added.AgentOf(r.node).table, r.port) == s.AgentOf(r.node).table;
    assert s.agents[r.node := s.agents[r.node]] == s.agents;
  }
}
