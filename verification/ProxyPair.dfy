/**
 Client-mode proxies in front of a server-mode proxy, over a network that loses, repeats and reorders.

 A client-mode proxy opens one upstream socket for each of its clients and puts its target in front of
 every payload. The server keeps one session for each source address and pins it to the first target it
 reads there. Sessions on both sides come and go at any time.
 */
module ProxyPair {
  import opened Wrappers
  import opened AddressCodec

  type Payload = seq<byte>

  /** A datagram on its way to the server. */
  datatype Datagram = Datagram(source: int, bytes: Payload)

  /** A payload the server passes on. */
  datatype Emission = Emission(source: int, target: UdpAddr, data: Payload)

  // ----- one proxy handling one packet

  /** Client mode: the sessions after a packet, and the datagram sent upstream. `dialled` is a new socket's address. */
  function ClientHandle(
      sessions: map<int, int>, target: UdpAddr, client: int, data: Payload, dialled: Option<int>, writeOk: bool)
    : (map<int, int>, Option<Datagram>)
  {
    if client !in sessions && dialled.None? then (sessions, None)
    else
      var source := if client in sessions then sessions[client] else dialled.value;
      if writeOk then (sessions[client := source], Some(Datagram(source, Packed(target, data))))
      else (sessions - {client}, None)
  }

  /** Server mode: the sessions after a packet, and the payload passed on. */
  function ServerHandle(sessions: map<int, UdpAddr>, d: Datagram, dialOk: bool, writeOk: bool)
    : (map<int, UdpAddr>, Option<Emission>)
  {
    var parsed := UnpackAddress(d.bytes);
    if |d.bytes| <= MIN_HEADER_SIZE || parsed.Err? || (d.source !in sessions && !dialOk) then (sessions, None)
    else
      var target := if d.source in sessions then sessions[d.source] else parsed.value.addr;
      if writeOk then (sessions[d.source := target], Some(Emission(d.source, target, parsed.value.data)))
      else (sessions - {d.source}, None)
  }

  class ProxyServer {
    const target: UdpAddr
    /** Client mode: the upstream address of each client's socket. */
    var upstream: map<int, int>
    /** Server mode: the address each session's socket is connected to. */
    var connected: map<int, UdpAddr>

    constructor (target: UdpAddr)
      ensures upstream == map[] && connected == map[] && this.target == target
    {
      this.target := target;
      upstream, connected := map[], map[];
    }

    method HandleClientPacket(client: int, data: Payload, dialled: Option<int>, writeOk: bool)
      returns (sent: Option<Datagram>)
      modifies this`upstream
      ensures (upstream, sent) == ClientHandle(old(upstream), target, client, data, dialled, writeOk)
    {
      if client !in upstream {
        if dialled.None? {
          return None;
        }
        upstream := upstream[client := dialled.value];
      }
      var source := upstream[client];
      var packet := PackAddress(target, data);
      if !writeOk {
        upstream := upstream - {client};
        assert upstream == old(upstream) - {client};
        return None;
      }
      assert upstream == old(upstream)[client := source];
      return Some(Datagram(source, packet));
    }

    method HandleServerPacket(d: Datagram, dialOk: bool, writeOk: bool) returns (sent: Option<Emission>)
      modifies this`connected
      ensures (connected, sent) == ServerHandle(old(connected), d, dialOk, writeOk)
    {
      if |d.bytes| <= MIN_HEADER_SIZE {
        return None;
      }
      var parsed := UnpackAddress(d.bytes);
      if parsed.Err? {
        return None;
      }
      if d.source !in connected {
        if !dialOk {
          return None;
        }
        connected := connected[d.source := parsed.value.addr];
      }
      var address := connected[d.source];
      if !writeOk {
        connected := connected - {d.source};
        assert connected == old(connected) - {d.source};
        return None;
      }
      assert connected == old(connected)[d.source := address];
      return Some(Emission(d.source, address, parsed.value.data));
    }
  }

  // ----- the composed system

  /** Which target each proxy is configured with, and which proxy each upstream source address belongs to. */
  datatype Config = Config(targets: map<int, UdpAddr>, owner: map<int, int>) {
    predicate Valid() {
      && (forall p | p in targets :: IsIp(targets[p].ip) && IsPort(targets[p].port))
      && (forall s | s in owner :: owner[s] in targets)
    }
  }

  datatype System = System(
    clients: map<int, map<int, int>>,
    received: set<(int, Payload)>,
    network: set<Datagram>,
    sessions: map<int, UdpAddr>,
    emitted: seq<Emission>)
  {
    function ClientsOf(proxy: int): map<int, int> {
      if proxy in clients then clients[proxy] else map[]
    }
  }

  const START := System(map[], {}, {}, map[], [])

  datatype Event =
    | ClientPacket(proxy: int, client: int, data: Payload, dialled: Option<int>, writeOk: bool)
    | ClientClosed(proxy: int, client: int)
    | Stranger(datagram: Datagram)
    | ServerPacket(datagram: Datagram, dialOk: bool, writeOk: bool)
    | ServerClosed(source: int)

  /** What the environment may do: sockets get their own proxy's addresses, and strangers get none of them. */
  predicate Possible(c: Config, s: System, e: Event) {
    match e
    case ClientPacket(proxy, _, _, dialled, _) =>
      proxy in c.targets && (dialled.Some? ==> dialled.value in c.owner && c.owner[dialled.value] == proxy)
    case Stranger(d) => d.source !in c.owner
    case ServerPacket(d, _, _) => d in s.network
    case _ => true
  }

  function Step(c: Config, s: System, e: Event): System
    requires Possible(c, s, e)
  {
    match e
    case ClientPacket(proxy, client, data, dialled, writeOk) =>
      var (sessions, sent) := ClientHandle(s.ClientsOf(proxy), c.targets[proxy], client, data, dialled, writeOk);
      s.(clients := s.clients[proxy := sessions],
         received := s.received + {(proxy, data)},
         network := s.network + (if sent.Some? then {sent.value} else {}))
    case ClientClosed(proxy, client) => s.(clients := s.clients[proxy := s.ClientsOf(proxy) - {client}])
    case Stranger(d) => s.(network := s.network + {d})
    case ServerPacket(d, dialOk, writeOk) =>
      var (sessions, sent) := ServerHandle(s.sessions, d, dialOk, writeOk);
      s.(sessions := sessions, emitted := s.emitted + (if sent.Some? then [sent.value] else []))
    case ServerClosed(source) => s.(sessions := s.sessions - {source})
  }

  /** A sequence of states, each from the one before by a possible event. */
  predicate IsRun(c: Config, states: seq<System>, es: seq<Event>) {
    && |states| == |es| + 1
    && states[0] == START
    && forall i | 0 <= i < |es| :: Possible(c, states[i], es[i]) && states[i + 1] == Step(c, states[i], es[i])
  }

  // ----- what every state satisfies

  /** The proxy's own target in front of a payload it received. */
  ghost predicate Genuine(c: Config, s: System, d: Datagram)
    requires c.Valid() && d.source in c.owner
  {
    var proxy := c.owner[d.source];
    exists data :: (proxy, data) in s.received && d.bytes == Packed(c.targets[proxy], data)
  }

  predicate Faithful(c: Config, s: System, e: Emission)
    requires c.Valid() && e.source in c.owner
  {
    var proxy := c.owner[e.source];
    e.target == Shortest(c.targets[proxy]) && (proxy, e.data) in s.received
  }

  ghost predicate Inv(c: Config, s: System)
    requires c.Valid()
  {
    && (forall p, k | p in s.clients && k in s.clients[p] ::
          s.clients[p][k] in c.owner && c.owner[s.clients[p][k]] == p)
    && (forall d | d in s.network && d.source in c.owner :: Genuine(c, s, d))
    && (forall x | x in s.sessions && x in c.owner :: s.sessions[x] == Shortest(c.targets[c.owner[x]]))
    && (forall i | 0 <= i < |s.emitted| && s.emitted[i].source in c.owner :: Faithful(c, s, s.emitted[i]))
  }

  lemma ClientStepKeepsInv(c: Config, s: System, e: Event)
    requires c.Valid() && Inv(c, s) && Possible(c, s, e) && e.ClientPacket?
    ensures Inv(c, Step(c, s, e))
  {
    var after := Step(c, s, e);
    var sent := ClientHandle(s.ClientsOf(e.proxy), c.targets[e.proxy], e.client, e.data, e.dialled, e.writeOk).1;
    forall d | d in after.network && d.source in c.owner ensures Genuine(c, after, d) {
      if d in s.network {
        var data :| (c.owner[d.source], data) in s.received && d.bytes == Packed(c.targets[c.owner[d.source]], data);
        assert (c.owner[d.source], data) in after.received;
      } else {
        assert sent == Some(d) && c.owner[d.source] == e.proxy;
        assert (e.proxy, e.data) in after.received;
      }
    }
  }

  lemma ServerStepKeepsInv(c: Config, s: System, e: Event)
    requires c.Valid() && Inv(c, s) && Possible(c, s, e) && e.ServerPacket?
    ensures Inv(c, Step(c, s, e))
  {
    if e.datagram.source in c.owner {
      GenuineParses(c, s, e.datagram);
    }
  }

  lemma GenuineParses(c: Config, s: System, d: Datagram)
    requires c.Valid() && Inv(c, s) && d in s.network && d.source in c.owner
    ensures |d.bytes| > MIN_HEADER_SIZE
    ensures var parsed := UnpackAddress(d.bytes);
            && parsed.Ok?
            && parsed.value.addr == Shortest(c.targets[c.owner[d.source]])
            && (c.owner[d.source], parsed.value.data) in s.received
  {
    assert Genuine(c, s, d);
    var proxy := c.owner[d.source];
    var data :| (proxy, data) in s.received && d.bytes == Packed(c.targets[proxy], data);
    UnpackPacked(c.targets[proxy], data);
  }

  lemma StepKeepsInv(c: Config, s: System, e: Event)
    requires c.Valid() && Inv(c, s) && Possible(c, s, e)
    ensures Inv(c, Step(c, s, e))
  {
    if e.ClientPacket? {
      ClientStepKeepsInv(c, s, e);
    } else if e.ServerPacket? {
      ServerStepKeepsInv(c, s, e);
    } else {
      var after := Step(c, s, e);
      forall d | d in after.network && d.source in c.owner ensures Genuine(c, after, d) {
        assert Genuine(c, s, d);
      }
    }
  }

  lemma {:induction false} RunKeepsInv(c: Config, states: seq<System>, es: seq<Event>)
    requires c.Valid() && IsRun(c, states, es)
    ensures Inv(c, states[|es|])
    decreases |es|
  {
    if es != [] {
      var n := |es| - 1;
      RunKeepsInv(c, states[..n + 1], es[..n]);
      StepKeepsInv(c, states[n], es[n]);
    }
  }

  /**
   Everything the server ever emits for a source that belongs to a client-mode proxy goes to that proxy's
   configured target and is exactly a payload the proxy received, whatever is lost, repeated or reordered
   and whenever sessions expire.
   */
  lemma EmissionsFaithful(c: Config, states: seq<System>, es: seq<Event>, i: nat)
    requires c.Valid() && IsRun(c, states, es)
    requires i < |states[|es|].emitted| && states[|es|].emitted[i].source in c.owner
    ensures Faithful(c, states[|es|], states[|es|].emitted[i])
  {
    RunKeepsInv(c, states, es);
  }

  /** And a datagram of such a source is never dropped for its contents: it yields its one emission. */
  lemma GenuineDelivered(c: Config, states: seq<System>, es: seq<Event>, d: Datagram)
    requires c.Valid() && IsRun(c, states, es) && d in states[|es|].network && d.source in c.owner
    ensures var s := states[|es|];
            var after := Step(c, s, ServerPacket(d, true, true));
            exists data ::
              && (c.owner[d.source], data) in s.received
              && d.bytes == Packed(c.targets[c.owner[d.source]], data)
              && after.emitted == s.emitted + [Emission(d.source, Shortest(c.targets[c.owner[d.source]]), data)]
  {
    var s := states[|es|];
    RunKeepsInv(c, states, es);
    assert Genuine(c, s, d);
    var proxy := c.owner[d.source];
    var data :| (proxy, data) in s.received && d.bytes == Packed(c.targets[proxy], data);
    UnpackPacked(c.targets[proxy], data);
  }

  // ----- sessions, told packet by packet

  /** Longer than a bare header, and a header at its front. */
  predicate Readable(bytes: Payload) {
    |bytes| > 4 && UnpackAddress(bytes).Ok?
  }

  /**
   A packet at the server: one that cannot be read, or needs a new session and cannot have one, changes nothing. Any
   other goes to the address its source's session is connected to, which for a new session is the one it names itself;
   and a failed write ends the session.
   */
  lemma ServerTurn(c: Config, s: System, d: Datagram, dialOk: bool, writeOk: bool)
    requires d in s.network
    ensures var after, known := Step(c, s, ServerPacket(d, dialOk, writeOk)), d.source in s.sessions;
            && after.clients == s.clients && after.network == s.network && after.received == s.received
            && (!Readable(d.bytes) || (!known && !dialOk) ==> after == s)
            && (Readable(d.bytes) && (known || dialOk) ==>
                  var parsed := UnpackAddress(d.bytes).value;
                  var target := if known then s.sessions[d.source] else parsed.addr;
                  if writeOk then
                    && after.sessions == s.sessions[d.source := target]
                    && after.emitted == s.emitted + [Emission(d.source, target, parsed.data)]
                  else after.sessions == s.sessions - {d.source} && after.emitted == s.emitted)
  {
    assert s.emitted + [] == s.emitted;
  }

  /** A packet at a client-mode proxy: sent over the client's own socket, or a new one, behind the proxy's target. */
  lemma ClientTurn(c: Config, s: System, proxy: int, client: int, data: Payload, dialled: Option<int>, writeOk: bool)
    requires Possible(c, s, ClientPacket(proxy, client, data, dialled, writeOk))
    ensures var after := Step(c, s, ClientPacket(proxy, client, data, dialled, writeOk));
            var before, sockets, known := s.ClientsOf(proxy), after.ClientsOf(proxy), client in s.ClientsOf(proxy);
            && (forall other | other != proxy :: after.ClientsOf(other) == s.ClientsOf(other))
            && after.sessions == s.sessions && after.emitted == s.emitted
            && (!known && dialled.None? ==> sockets == before && after.network == s.network)
            && (known || dialled.Some? ==>
                  var source := if known then before[client] else dialled.value;
                  if writeOk then
                    && sockets == before[client := source]
                    && after.network == s.network + {Datagram(source, Packed(c.targets[proxy], data))}
                  else sockets == before - {client} && after.network == s.network)
  {
  }

  /** The event ends a client's session at its proxy. */
  predicate EndsClient(e: Event, proxy: int, client: int) {
    match e
    case ClientClosed(p, closed) => p == proxy && closed == client
    case ClientPacket(p, sender, _, _, writeOk) => p == proxy && sender == client && !writeOk
    case _ => false
  }

  /** A client keeps its socket until its session ends, and then has none. */
  lemma KeepsSocket(c: Config, s: System, e: Event, proxy: int, client: int)
    requires Possible(c, s, e) && client in s.ClientsOf(proxy)
    ensures var after := Step(c, s, e).ClientsOf(proxy);
            if EndsClient(e, proxy, client) then client !in after
            else client in after && after[client] == s.ClientsOf(proxy)[client]
  {
    if e.ClientPacket? {
      ClientTurn(c, s, e.proxy, e.client, e.data, e.dialled, e.writeOk);
    }
  }

  /** The event ends a source's session at the server. */
  predicate EndsSession(e: Event, source: int) {
    match e
    case ServerClosed(closed) => closed == source
    case ServerPacket(d, _, writeOk) => d.source == source && !writeOk && Readable(d.bytes)
    case _ => false
  }

  /** Until its session ends, a source stays connected to the address it was first connected to. */
  lemma {:induction false} StaysPinned(c: Config, states: seq<System>, es: seq<Event>, i: nat, source: int)
    requires IsRun(c, states, es) && i <= |es| && source in states[i].sessions
    requires forall k | i <= k < |es| :: !EndsSession(es[k], source)
    ensures source in states[|es|].sessions && states[|es|].sessions[source] == states[i].sessions[source]
    decreases |es|
  {
    if i < |es| {
      var n := |es| - 1;
      StaysPinned(c, states[..n + 1], es[..n], i, source);
      assert !EndsSession(es[n], source);
      KeepsSession(c, states[n], es[n], source);
    }
  }

  lemma KeepsSession(c: Config, s: System, e: Event, source: int)
    requires Possible(c, s, e) && source in s.sessions
    ensures var after := Step(c, s, e).sessions;
            if EndsSession(e, source) then source !in after
            else source in after && after[source] == s.sessions[source]
  {
    if e.ServerPacket? {
      ServerTurn(c, s, e.datagram, e.dialOk, e.writeOk);
    }
  }

  /** So what the server passes on for the source meanwhile goes there, whatever address its packets name. */
  lemma SentWhilePinned(c: Config, states: seq<System>, es: seq<Event>, i: nat, d: Datagram, dialOk: bool)
    requires IsRun(c, states, es) && i <= |es| && d.source in states[i].sessions && d in states[|es|].network
    requires forall k | i <= k < |es| :: !EndsSession(es[k], d.source)
    requires Readable(d.bytes)
    ensures Step(c, states[|es|], ServerPacket(d, dialOk, true)).emitted ==
            states[|es|].emitted
            + [Emission(d.source, states[i].sessions[d.source], UnpackAddress(d.bytes).value.data)]
  {
    StaysPinned(c, states, es, i, d.source);
    ServerTurn(c, states[|es|], d, dialOk, true);
  }
}
