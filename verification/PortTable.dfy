/**
 The agent's table of open listeners, outside gost mode: rules and chains are entered under their port, with
 a UDP companion under a second key, and `DelPort` closes both.
 */
module PortTable {
  import opened Text
  import opened Wrappers

  datatype Protocol = TCP | TLS

  datatype Kind = Service | Chain

  /** An open listener; a rule's carries the address it forwards to. */
  datatype Entry = Entry(kind: Kind, remote: string)

  datatype ConnKey = Tcp(port: int) | Udp(port: int) | UdpV2(port: int)

  type Table = map<ConnKey, Entry>

  /** The string a connection is stored under. */
  function KeyName(k: ConnKey): string {
    match k
    case Tcp(port) => Itoa(port)
    case Udp(port) => "udp#" + Itoa(port)
    case UdpV2(port) => "udpV2#" + Itoa(port)
  }

  /** Different keys have different names, so the table may be keyed by either. */
  lemma KeyNamesDistinct(a: ConnKey, b: ConnKey)
    requires KeyName(a) == KeyName(b)
    ensures a == b
  {
    PlainNames(a.port);
    PlainNames(b.port);
    if a.Tcp? || b.Tcp? {
      assert a.Tcp? && b.Tcp?;
    } else if a.Udp? {
      assert KeyName(a)[3] == '#';
      assert b.Udp?;
      assert KeyName(a)[4..] == Itoa(a.port) && KeyName(b)[4..] == Itoa(b.port);
    } else {
      assert KeyName(a)[3] == 'V';
      assert b.UdpV2?;
      assert KeyName(a)[6..] == Itoa(a.port) && KeyName(b)[6..] == Itoa(b.port);
    }
    ItoaInjective(a.port, b.port);
  }

  lemma PlainNames(port: int)
    ensures Itoa(port) != "" && Itoa(port)[0] != 'u'
  {
    var digits := Digits(if port < 0 then -port else port);
    assert digits[0] in digits;
  }

  // ----- the three operations

  /** A new listener, with or without a UDP companion. */
  function Entered(t: Table, port: int, entry: Entry, companion: bool): Table {
    if companion then t[Tcp(port) := entry][Udp(port) := entry] else t[Tcp(port) := entry]
  }

  /** `bindable` says whether the system grants the port: no other process holds it and the addresses resolve. */
  function RuleAdded(t: Table, port: int, remote: string, protocol: Protocol, bindable: bool, udp: bool)
    : Option<Table>
  {
    if Tcp(port) in t || !bindable then None
    else Some(Entered(t, port, Entry(Service, remote), protocol.TCP? && udp))
  }

  function ChainAdded(t: Table, port: int, bindable: bool, udp: bool): Option<Table> {
    if Tcp(port) in t || !bindable then None
    else Some(Entered(t, port, Entry(Chain, ""), udp))
  }

  function PortDeleted(t: Table, port: int): Table {
    if Tcp(port) !in t then t
    else if Udp(port) in t then t - {Tcp(port), Udp(port)}
    else t - {Tcp(port), UdpV2(port)}
  }

  /** A rule moved: the old port is closed first, so the agent is left without it when the new one cannot be opened. */
  function RuleMoved(
      t: Table, oldPort: int, port: int, remote: string, protocol: Protocol, bindable: bool, udp: bool): (Table, bool)
  {
    var freed := PortDeleted(t, oldPort);
    var added := RuleAdded(freed, port, remote, protocol, bindable, udp);
    if added.Some? then (added.value, true) else (freed, false)
  }

  // ----- runs of operations

  datatype Op =
    | OpenRule(port: int, remote: string, protocol: Protocol, bindable: bool)
    | OpenChain(port: int, bindable: bool)
    | ClosePort(port: int)

  function Apply(t: Table, op: Op, udp: bool): Table {
    match op
    case OpenRule(port, remote, protocol, bindable) =>
      var added := RuleAdded(t, port, remote, protocol, bindable, udp);
      if added.Some? then added.value else t
    case OpenChain(port, bindable) =>
      var added := ChainAdded(t, port, bindable, udp);
      if added.Some? then added.value else t
    case ClosePort(port) => PortDeleted(t, port)
  }

  function ApplyAll(ops: seq<Op>, udp: bool): Table {
    if ops == [] then map[] else Apply(ApplyAll(ops[..|ops| - 1], udp), ops[|ops| - 1], udp)
  }

  /** A UDP companion never outlives its port, is of the same rule or chain, and is never of the second kind. */
  predicate Paired(t: Table) {
    forall k | k in t :: !k.UdpV2? && Tcp(k.port) in t && t[k] == t[Tcp(k.port)]
  }

  lemma OpKeepsPaired(t: Table, op: Op, udp: bool)
    requires Paired(t)
    ensures Paired(Apply(t, op, udp))
  {
    if op.OpenRule? && Tcp(op.port) !in t {
      EnteredPaired(t, op.port, Entry(Service, op.remote), op.protocol.TCP? && udp);
    } else if op.OpenChain? && Tcp(op.port) !in t {
      EnteredPaired(t, op.port, Entry(Chain, ""), udp);
    }
  }

  lemma {:induction false} RunsArePaired(ops: seq<Op>, udp: bool)
    ensures Paired(ApplyAll(ops, udp))
  {
    if ops != [] {
      RunsArePaired(ops[..|ops| - 1], udp);
      OpKeepsPaired(ApplyAll(ops[..|ops| - 1], udp), ops[|ops| - 1], udp);
    }
  }

  /** Deleting a port closes everything entered under it and nothing else. */
  lemma DeleteIsExact(t: Table, port: int)
    requires Paired(t)
    ensures PortDeleted(t, port) == map k | k in t && k.port != port :: t[k]
  {
  }

  /** After any run, a deleted port is free: a rule can be opened on it again, whatever was there. */
  lemma DeletedPortReopens(ops: seq<Op>, udp: bool, port: int, remote: string, protocol: Protocol)
    ensures var t := ApplyAll(ops + [ClosePort(port), OpenRule(port, remote, protocol, true)], udp);
            && Tcp(port) in t && t[Tcp(port)] == Entry(Service, remote)
            && (Udp(port) in t <==> protocol.TCP? && udp)
            && forall k | k in ApplyAll(ops, udp) && k.port != port :: k in t && t[k] == ApplyAll(ops, udp)[k]
  {
    RunsArePaired(ops, udp);
    var deleted := ops + [ClosePort(port)];
    assert deleted[..|ops|] == ops;
    assert (ops + [ClosePort(port), OpenRule(port, remote, protocol, true)])[..|ops| + 1] == deleted;
    DeleteIsExact(ApplyAll(ops, udp), port);
  }

  // ----- starting an agent from its snapshot

  datatype ChainVO = ChainVO(port: int, protocol: Protocol)

  datatype RuleVO = RuleVO(port: int, remote: string, protocol: Protocol)

  /** The table after opening the chains, or `None` when one cannot be opened: the agent then panics. */
  function ChainsOpened(chains: seq<ChainVO>, busy: set<int>, udp: bool): Option<Table> {
    if chains == [] then Some(map[])
    else
      var n := |chains| - 1;
      var before := ChainsOpened(chains[..n], busy, udp);
      if before.None? then None
      else ChainAdded(PortDeleted(before.value, chains[n].port), chains[n].port, chains[n].port !in busy, udp)
  }

  function RulesOpened(t: Table, rules: seq<RuleVO>, busy: set<int>, udp: bool): Option<Table> {
    if rules == [] then Some(t)
    else
      var n := |rules| - 1;
      var before := RulesOpened(t, rules[..n], busy, udp);
      if before.None? then None
      else RuleAdded(before.value, rules[n].port, rules[n].remote, rules[n].protocol, rules[n].port !in busy, udp)
  }

  function AgentStarted(chains: seq<ChainVO>, rules: seq<RuleVO>, busy: set<int>, udp: bool): Option<Table> {
    var result := ChainsOpened(chains, busy, udp);
    if result.None? then None else RulesOpened(result.value, rules, busy, udp)
  }

  /** The rules a table serves: each rule port with the address it forwards to. */
  function RulesIn(t: Table): set<(int, string)> {
    set k | k in t && k.Tcp? && t[k].kind.Service? :: (k.port, t[k].remote)
  }

  function ChainsIn(t: Table): set<int> {
    set k | k in t && k.Tcp? && t[k].kind.Chain? :: k.port
  }

  function PortsIn(t: Table): set<int> {
    set k | k in t && k.Tcp? :: k.port
  }

  function ChainPorts(chains: seq<ChainVO>): set<int> {
    set i | 0 <= i < |chains| :: chains[i].port
  }

  function RulePorts(rules: seq<RuleVO>): set<int> {
    set i | 0 <= i < |rules| :: rules[i].port
  }

  function RulePairs(rules: seq<RuleVO>): set<(int, string)> {
    set i | 0 <= i < |rules| :: (rules[i].port, rules[i].remote)
  }

  predicate DistinctPorts(rules: seq<RuleVO>) {
    forall i, j | 0 <= i < j < |rules| :: rules[i].port != rules[j].port
  }

  /** Membership in a table's projections, by key. */
  lemma InProjections(t: Table, port: int, remote: string)
    ensures (port, remote) in RulesIn(t) <==> Tcp(port) in t && t[Tcp(port)] == Entry(Service, remote)
    ensures port in ChainsIn(t) <==> Tcp(port) in t && t[Tcp(port)].kind.Chain?
    ensures port in PortsIn(t) <==> Tcp(port) in t
  {
  }

  lemma EnteredEffect(t: Table, port: int, entry: Entry, companion: bool)
    requires Tcp(port) !in t
    ensures var after := Entered(t, port, entry, companion);
            && PortsIn(after) == PortsIn(t) + {port}
            && RulesIn(after) == RulesIn(t) + (if entry.kind.Service? then {(port, entry.remote)} else {})
            && ChainsIn(after) == ChainsIn(t) + (if entry.kind.Chain? then {port} else {})
  {
    var after := Entered(t, port, entry, companion);
    assert after[Tcp(port)] == entry;
    assert forall k | k in t && k.Tcp? :: k in after && t[k] == after[k];
  }

  lemma EnteredPaired(t: Table, port: int, entry: Entry, companion: bool)
    requires Tcp(port) !in t && Paired(t)
    ensures Paired(Entered(t, port, entry, companion))
  {
  }

  lemma RuleAddedEffect(t: Table, port: int, remote: string, protocol: Protocol, bindable: bool, udp: bool)
    requires Paired(t) && RuleAdded(t, port, remote, protocol, bindable, udp).Some?
    ensures var after := RuleAdded(t, port, remote, protocol, bindable, udp).value;
            && Paired(after)
            && PortsIn(after) == PortsIn(t) + {port}
            && RulesIn(after) == RulesIn(t) + {(port, remote)}
            && ChainsIn(after) == ChainsIn(t)
  {
    EnteredPaired(t, port, Entry(Service, remote), protocol.TCP? && udp);
    EnteredEffect(t, port, Entry(Service, remote), protocol.TCP? && udp);
  }

  lemma ChainAddedEffect(t: Table, port: int, bindable: bool, udp: bool)
    requires Paired(t) && ChainAdded(t, port, bindable, udp).Some?
    ensures var after := ChainAdded(t, port, bindable, udp).value;
            && Paired(after)
            && PortsIn(after) == PortsIn(t) + {port}
            && RulesIn(after) == RulesIn(t)
            && ChainsIn(after) == ChainsIn(t) + {port}
  {
    EnteredPaired(t, port, Entry(Chain, ""), udp);
    EnteredEffect(t, port, Entry(Chain, ""), udp);
  }

  lemma PortDeletedEffect(t: Table, port: int)
    requires Paired(t)
    ensures var after := PortDeleted(t, port);
            && Paired(after)
            && PortsIn(after) == PortsIn(t) - {port}
            && RulesIn(after) == (set pair | pair in RulesIn(t) && pair.0 != port)
            && ChainsIn(after) == ChainsIn(t) - {port}
  {
    var after := PortDeleted(t, port);
    DeleteIsExact(t, port);
    assert forall k | k in t && k.port != port :: k in after && after[k] == t[k];
  }

  /** A rule's listener is open as asked for, with its UDP companion or without. */
  predicate RuleServed(t: Table, port: int, remote: string, protocol: Protocol, udp: bool) {
    && Tcp(port) in t && t[Tcp(port)] == Entry(Service, remote)
    && (Udp(port) in t <==> protocol == TCP && udp)
  }

  predicate ChainServed(t: Table, port: int, udp: bool) {
    && Tcp(port) in t && t[Tcp(port)] == Entry(Chain, "")
    && (Udp(port) in t <==> udp)
  }

  /** Apart from these ports the tables are the same. */
  ghost predicate SameBut(t: Table, u: Table, ports: set<int>) {
    forall k: ConnKey | k.port !in ports :: (k in t <==> k in u) && (k in t ==> t[k] == u[k])
  }

  predicate Closed(t: Table, port: int) {
    Tcp(port) !in t && Udp(port) !in t && UdpV2(port) !in t
  }

  /** What opening a rule, opening a chain, closing a port and moving a rule come to. */
  lemma OpensAsAsked(t: Table, port: int, remote: string, protocol: Protocol, bindable: bool, udp: bool)
    requires Paired(t)
    ensures var added := RuleAdded(t, port, remote, protocol, bindable, udp);
            && (added.Some? <==> bindable && Tcp(port) !in t)
            && (added.Some? ==>
                  RuleServed(added.value, port, remote, protocol, udp) && SameBut(t, added.value, {port}))
    ensures var added := ChainAdded(t, port, bindable, udp);
            && (added.Some? <==> bindable && Tcp(port) !in t)
            && (added.Some? ==> ChainServed(added.value, port, udp) && SameBut(t, added.value, {port}))
    ensures Closed(PortDeleted(t, port), port) && SameBut(t, PortDeleted(t, port), {port})
  {
    DeleteIsExact(t, port);
  }

  /** In any table, paired or not: a deletion needs the port's own entry, and takes one companion, UDP's first. */
  lemma DeletedFromAny(t: Table, port: int)
    ensures var after := PortDeleted(t, port);
            && SameBut(t, after, {port})
            && (Tcp(port) !in t ==> after == t)
            && (Tcp(port) in t ==>
                  && Tcp(port) !in after && Udp(port) !in after
                  && (UdpV2(port) in after <==> UdpV2(port) in t && Udp(port) in t))
  {
  }

  lemma MovesAsAsked(
      t: Table, oldPort: int, port: int, remote: string, protocol: Protocol, bindable: bool, udp: bool)
    requires Paired(t)
    ensures var (moved, ok) := RuleMoved(t, oldPort, port, remote, protocol, bindable, udp);
            && (ok <==> bindable && (port == oldPort || Tcp(port) !in t))
            && (ok ==> RuleServed(moved, port, remote, protocol, udp) && SameBut(t, moved, {oldPort, port}))
            && (!ok ==> SameBut(t, moved, {oldPort}))
            && (!ok || port != oldPort ==> Closed(moved, oldPort))
  {
    hide RuleAdded, ChainAdded;
    PortDeletedEffect(t, oldPort);
    OpensAsAsked(t, oldPort, remote, protocol, bindable, udp);
    OpensAsAsked(PortDeleted(t, oldPort), port, remote, protocol, bindable, udp);
  }

  /** Repeated chain ports are harmless: each is reopened. Only a busy port stops the agent. */
  lemma {:induction false} ChainsOpen(chains: seq<ChainVO>, busy: set<int>, udp: bool)
    ensures var result := ChainsOpened(chains, busy, udp);
            && (result.Some? <==> ChainPorts(chains) !! busy)
            && (result.Some? ==>
                  && Paired(result.value)
                  && PortsIn(result.value) == ChainsIn(result.value) == ChainPorts(chains)
                  && RulesIn(result.value) == {})
  {
    if chains != [] {
      var n := |chains| - 1;
      var port := chains[n].port;
      ChainsOpen(chains[..n], busy, udp);
      assert ChainPorts(chains) == ChainPorts(chains[..n]) + {port};
      var before := ChainsOpened(chains[..n], busy, udp);
      if before.Some? {
        PortDeletedEffect(before.value, port);
        var freed := PortDeleted(before.value, port);
        assert Tcp(port) !in freed by { DeleteIsExact(before.value, port); }
        if port !in busy {
          ChainAddedEffect(freed, port, true, udp);
        }
      }
    }
  }

  lemma {:induction false} RulesOpen(t: Table, rules: seq<RuleVO>, busy: set<int>, udp: bool)
    requires Paired(t)
    ensures var result := RulesOpened(t, rules, busy, udp);
            && (result.Some? <==> DistinctPorts(rules) && RulePorts(rules) !! busy && RulePorts(rules) !! PortsIn(t))
            && (result.Some? ==>
                  && Paired(result.value)
                  && PortsIn(result.value) == PortsIn(t) + RulePorts(rules)
                  && RulesIn(result.value) == RulesIn(t) + RulePairs(rules)
                  && ChainsIn(result.value) == ChainsIn(t))
  {
    if rules != [] {
      var n := |rules| - 1;
      var rule := rules[n];
      RulesOpen(t, rules[..n], busy, udp);
      assert RulePorts(rules) == RulePorts(rules[..n]) + {rule.port};
      assert RulePairs(rules) == RulePairs(rules[..n]) + {(rule.port, rule.remote)};
      DistinctSnoc(rules);
      var before := RulesOpened(t, rules[..n], busy, udp);
      if before.Some? {
        InProjections(before.value, rule.port, rule.remote);
        if RulesOpened(t, rules, busy, udp).Some? {
          RuleAddedEffect(before.value, rule.port, rule.remote, rule.protocol, rule.port !in busy, udp);
        }
      }
    }
  }

  lemma DistinctSnoc(rules: seq<RuleVO>)
    requires rules != []
    ensures var n := |rules| - 1;
            DistinctPorts(rules) <==> DistinctPorts(rules[..n]) && rules[n].port !in RulePorts(rules[..n])
  {
  }

  /**
   An agent comes up exactly when no port of its snapshot is busy, its rule ports are distinct and none of
   them is a chain port; it then has exactly the snapshot's ports open, the rules forwarding where they should.
   */
  lemma AgentStarts(chains: seq<ChainVO>, rules: seq<RuleVO>, busy: set<int>, udp: bool)
    ensures var started := AgentStarted(chains, rules, busy, udp);
            && (started.Some? <==>
                  && ChainPorts(chains) !! busy && RulePorts(rules) !! busy
                  && DistinctPorts(rules) && RulePorts(rules) !! ChainPorts(chains))
            && (started.Some? ==>
                  && Paired(started.value)
                  && PortsIn(started.value) == ChainPorts(chains) + RulePorts(rules)
                  && ChainsIn(started.value) == ChainPorts(chains)
                  && RulesIn(started.value) == RulePairs(rules))
  {
    ChainsOpen(chains, busy, udp);
    var result := ChainsOpened(chains, busy, udp);
    if result.Some? {
      RulesOpen(result.value, rules, busy, udp);
    }
  }

  lemma {:induction false} ChainsServed(chains: seq<ChainVO>, busy: set<int>, udp: bool, i: nat)
    requires i < |chains| && ChainsOpened(chains, busy, udp).Some?
    ensures ChainServed(ChainsOpened(chains, busy, udp).value, chains[i].port, udp)
  {
    hide ChainAdded, PortDeleted, ChainPorts, ChainsIn, RulesIn, PortsIn;
    var n := |chains| - 1;
    var before := ChainsOpened(chains[..n], busy, udp).value;
    ChainsOpen(chains[..n], busy, udp);
    PortDeletedEffect(before, chains[n].port);
    OpensAsAsked(before, chains[n].port, "", TCP, true, udp);
    OpensAsAsked(PortDeleted(before, chains[n].port), chains[n].port, "", TCP, chains[n].port !in busy, udp);
    if chains[i].port != chains[n].port {
      ChainsServed(chains[..n], busy, udp, i);
    }
  }

  lemma {:induction false} RulesServed(t: Table, rules: seq<RuleVO>, busy: set<int>, udp: bool, i: nat)
    requires Paired(t) && i < |rules| && RulesOpened(t, rules, busy, udp).Some?
    ensures var result := RulesOpened(t, rules, busy, udp).value;
            RuleServed(result, rules[i].port, rules[i].remote, rules[i].protocol, udp)
  {
    hide RuleAdded, RulePorts, RulePairs, ChainsIn, RulesIn, PortsIn, Paired;
    var n := |rules| - 1;
    RulesOpen(t, rules[..n], busy, udp);
    RulesOpen(t, rules, busy, udp);
    var before := RulesOpened(t, rules[..n], busy, udp).value;
    OpensAsAsked(before, rules[n].port, rules[n].remote, rules[n].protocol, rules[n].port !in busy, udp);
    if i < n {
      RulesServed(t, rules[..n], busy, udp, i);
    }
  }

  lemma {:induction false} RulesLeaveOthers(t: Table, rules: seq<RuleVO>, busy: set<int>, udp: bool)
    requires Paired(t) && RulesOpened(t, rules, busy, udp).Some?
    ensures SameBut(t, RulesOpened(t, rules, busy, udp).value, RulePorts(rules))
  {
    hide RuleAdded, RulePairs, ChainsIn, RulesIn, PortsIn, Paired, RuleServed;
    if rules != [] {
      var n := |rules| - 1;
      RulesLeaveOthers(t, rules[..n], busy, udp);
      RulesOpen(t, rules[..n], busy, udp);
      var before := RulesOpened(t, rules[..n], busy, udp).value;
      OpensAsAsked(before, rules[n].port, rules[n].remote, rules[n].protocol, rules[n].port !in busy, udp);
      assert RulePorts(rules) == RulePorts(rules[..n]) + {rules[n].port};
    }
  }

  /** Every listener of a snapshot is open once the agent is up, with its own protocol's companion. */
  lemma AllServed(chains: seq<ChainVO>, rules: seq<RuleVO>, busy: set<int>, udp: bool)
    requires AgentStarted(chains, rules, busy, udp).Some?
    ensures var t := AgentStarted(chains, rules, busy, udp).value;
            && (forall i | 0 <= i < |chains| :: ChainServed(t, chains[i].port, udp))
            && (forall i | 0 <= i < |rules| :: RuleServed(t, rules[i].port, rules[i].remote, rules[i].protocol, udp))
  {
    hide ChainServed, RuleServed;
    var before := ChainsOpened(chains, busy, udp).value;
    ChainsOpen(chains, busy, udp);
    RulesLeaveOthers(before, rules, busy, udp);
    AgentStarts(chains, rules, busy, udp);
    var t := AgentStarted(chains, rules, busy, udp).value;
    forall i | 0 <= i < |chains| ensures ChainServed(t, chains[i].port, udp) {
      ChainsServed(chains, busy, udp, i);
      assert chains[i].port in ChainPorts(chains);
      StillServed(before, t, RulePorts(rules), chains[i].port, udp);
    }
    forall i | 0 <= i < |rules| ensures RuleServed(t, rules[i].port, rules[i].remote, rules[i].protocol, udp) {
      RulesServed(before, rules, busy, udp, i);
    }
  }

  lemma StillServed(t: Table, u: Table, ports: set<int>, port: int, udp: bool)
    requires SameBut(t, u, ports) && port !in ports && ChainServed(t, port, udp)
    ensures ChainServed(u, port, udp)
  {
    assert Tcp(port).port == port && Udp(port).port == port;
  }

  // ----- the agent

  class Manager {
    const enableUdp: bool
    var conns: Table

    constructor (enableUdp: bool)
      ensures conns == map[] && this.enableUdp == enableUdp
    {
      this.enableUdp := enableUdp;
      conns := map[];
    }

    method AddRule(port: int, remote: string, protocol: Protocol, bindable: bool) returns (ok: bool)
      modifies this`conns
      ensures conns == Apply(old(conns), OpenRule(port, remote, protocol, bindable), enableUdp)
      ensures ok <==> RuleAdded(old(conns), port, remote, protocol, bindable, enableUdp).Some?
    {
      if !bindable || Tcp(port) in conns {
        return false;
      }
      match protocol {
        case TCP =>
          conns := conns[Tcp(port) := Entry(Service, remote)];
          if enableUdp {
            conns := conns[Udp(port) := Entry(Service, remote)];
          }
        case TLS =>
          conns := conns[Tcp(port) := Entry(Service, remote)];
      }
      return true;
    }

    method AddChain(port: int, protocol: Protocol, bindable: bool) returns (ok: bool)
      modifies this`conns
      ensures conns == Apply(old(conns), OpenChain(port, bindable), enableUdp)
      ensures ok <==> ChainAdded(old(conns), port, bindable, enableUdp).Some?
    {
      if !bindable || Tcp(port) in conns {
        return false;
      }
      conns := conns[Tcp(port) := Entry(Chain, "")];
      if enableUdp {
        conns := conns[Udp(port) := Entry(Chain, "")];
      }
      return true;
    }

    method DelPort(port: int)
      modifies this`conns
      ensures conns == Apply(old(conns), ClosePort(port), enableUdp)
    {
      var key := Tcp(port);
      if key !in conns {
        return;
      }
      conns := conns - {key};
      var udpKey := Udp(port);
      if udpKey !in conns {
        udpKey := UdpV2(port);
        if udpKey !in conns {
          assert conns == PortDeleted(old(conns), port);
          return;
        }
      }
      conns := conns - {udpKey};
      assert conns == PortDeleted(old(conns), port);
    }

    /** Opens everything the controller's snapshot lists; a listener that cannot be opened is a panic. */
    method InitAgent(chains: seq<ChainVO>, rules: seq<RuleVO>, busy: set<int>) returns (panicked: bool)
      requires conns == map[]
      modifies this`conns
      ensures panicked <==> AgentStarted(chains, rules, busy, enableUdp).None?
      ensures !panicked ==> AgentStarted(chains, rules, busy, enableUdp) == Some(conns)
    {
      for i := 0 to |chains|
        invariant ChainsOpened(chains[..i], busy, enableUdp) == Some(conns)
      {
        assert chains[..i + 1][..i] == chains[..i];
        DelPort(chains[i].port);
        var ok := AddChain(chains[i].port, chains[i].protocol, chains[i].port !in busy);
        if !ok {
          ChainsStuck(chains, i + 1, busy, enableUdp);
          return true;
        }
      }
      assert chains[..|chains|] == chains;
      ghost var result := conns;
      for i := 0 to |rules|
        invariant RulesOpened(result, rules[..i], busy, enableUdp) == Some(conns)
      {
        assert rules[..i + 1][..i] == rules[..i];
        var ok := AddRule(rules[i].port, rules[i].remote, rules[i].protocol, rules[i].port !in busy);
        if !ok {
          RulesStuck(result, rules, i + 1, busy, enableUdp);
          return true;
        }
      }
      assert rules[..|rules|] == rules;
      return false;
    }
  }

  /** Once a chain cannot be opened, the agent stays down. */
  lemma {:induction false} ChainsStuck(chains: seq<ChainVO>, i: nat, busy: set<int>, udp: bool)
    requires i <= |chains| && ChainsOpened(chains[..i], busy, udp).None?
    ensures ChainsOpened(chains, busy, udp).None?
    decreases |chains|
  {
    if i == |chains| {
      assert chains[..i] == chains;
    } else {
      assert chains[..|chains| - 1][..i] == chains[..i];
      ChainsStuck(chains[..|chains| - 1], i, busy, udp);
    }
  }

  lemma {:induction false} RulesStuck(t: Table, rules: seq<RuleVO>, i: nat, busy: set<int>, udp: bool)
    requires i <= |rules| && RulesOpened(t, rules[..i], busy, udp).None?
    ensures RulesOpened(t, rules, busy, udp).None?
    decreases |rules|
  {
    if i == |rules| {
      assert rules[..i] == rules;
    } else {
      assert rules[..|rules| - 1][..i] == rules[..i];
      RulesStuck(t, rules[..|rules| - 1], i, busy, udp);
    }
  }
}
