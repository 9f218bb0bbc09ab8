/**
 The session table of the UDP forwarder, step by step.

 Four kinds of goroutine share it: the packet loop, one return loop for each session, the expiry sweeper and
 whoever calls `Close`. Every access to the shared map, a socket or the wait group is a step of its own, and
 any goroutine may take the next one; only the time of last use is stored in the same step as the write or
 read it belongs to. Sessions are numbered in the order they are dialled. The chain proxy's table differs in
 one place: its `Close` closes the main socket before the sessions' sockets rather than after.
 */
module Sessions {
  import opened Sums

  type Key = int
  type Id = nat

  /** The packet loop; its session is being set up in the middle four positions. */
  datatype Packet =
    | Polling
    | Reading
    | Received(key: Key)
    | Dialling(key: Key)
    | Dialled(key: Key, id: Id)
    | Counted(key: Key, id: Id)
    | Stored(key: Key, id: Id)
    | Writing(key: Key, id: Id)
    | Deleting(key: Key, id: Id)
    | Closing(id: Id)
    | Returned

  /** A session's return loop. */
  datatype Loop = LoopPolling | LoopReading | LoopDeleting | LoopClosing | LoopReturning

  datatype Sweeper =
    | Waiting
    | Collecting(before: int, ahead: set<Key>, keys: seq<Key>)
    | Sweeping(keys: seq<Key>)
    | SweepDeleting(key: Key, id: Id, rest: seq<Key>)
    | SweepClosing(id: Id, rest: seq<Key>)
    | Stopped

  datatype Closer = NotCalled | Ranging(keys: set<Key>) | AwaitingGroup | Finished

  datatype State = State(
    next: Id,                   // the number of the next session to be dialled
    clients: map<Key, Id>,      // the shared map
    open: set<Id>,              // sessions whose socket is open
    active: map<Id, int>,       // when a session was last used
    keyOf: map<Id, Key>,        // the client each session was dialled for
    group: int,                 // the wait group's counter
    shutdown: bool,
    loops: map<Id, Loop>,       // live return loops
    packet: Packet, sweeper: Sweeper, closer: Closer)
  {
    /** The main socket is still open: `Close` has not got past its own closing of it. */
    predicate Listening() {
      closer.NotCalled? || closer.Ranging?
    }

    /** The session is dialled but not yet in the map. */
    predicate Pending(id: Id) {
      (packet.Dialled? || packet.Counted?) && packet.id == id
    }

    /** The map leads the session's client to the session. */
    predicate Mapped(id: Id) {
      id in keyOf && keyOf[id] in clients && clients[keyOf[id]] == id
    }

    predicate IdleSince(key: Key, before: int) {
      key in clients && clients[key] in active && active[clients[key]] < before
    }
  }

  /** The listener is up: the sweeper has been counted and started. */
  const START := State(0, map[], {}, map[], map[], 1, false, map[], Polling, Waiting, NotCalled)

  datatype ReadOutcome = TimedOut | ReadFailed | Replied(now: int) | ReplyFailed

  datatype PacketEvent =
    | PollPackets
    | NoPacket
    | PacketFrom(key: Key)
    | Lookup
    | Dial(now: int, ok: bool)
    | Count
    | Store
    | Spawn
    | Write(now: int, ok: bool)
    | DropUnwritable
    | CloseUnwritable

  datatype LoopEvent = PollReplies | Read(outcome: ReadOutcome) | DropFailed | CloseFailed | Return

  /** A sweep ranges over the keys there are at its tick and any stored while it goes on, and visits each once. */
  datatype SweepEvent =
    | Tick(now: int, timeout: int, range: set<Key>)
    | Visit(key: Key)
    | Collected
    | NextExpired
    | DropExpired
    | CloseExpired
    | Stop

  datatype CloseEvent = Close(later: set<Key>) | CloseSocket(key: Key) | Ranged | Waited

  datatype Event =
    | OfPacketLoop(p: PacketEvent)
    | OfReturnLoop(id: Id, l: LoopEvent)
    | OfSweeper(w: SweepEvent)
    | OfClose(c: CloseEvent)

  /** A closed socket neither times out nor delivers: reading and writing it fail. */
  predicate Enabled(s: State, e: Event) {
    match e
    case OfPacketLoop(p) => PacketEnabled(s, p)
    case OfReturnLoop(id, l) => LoopEnabled(s, id, l)
    case OfSweeper(w) => SweepEnabled(s, w)
    case OfClose(c) => CloseEnabled(s, c)
  }

  function Step(s: State, e: Event): State
    requires Enabled(s, e)
  {
    match e
    case OfPacketLoop(p) => PacketStep(s, p)
    case OfReturnLoop(id, l) => LoopStep(s, id, l)
    case OfSweeper(w) => SweepStep(s, w)
    case OfClose(c) => CloseStep(s, c)
  }

  // ----- the packet loop

  predicate PacketEnabled(s: State, p: PacketEvent) {
    match p
    case PollPackets => s.packet.Polling?
    case NoPacket => s.packet.Reading?
    case PacketFrom(_) => s.packet.Reading? && s.Listening()
    case Lookup => s.packet.Received?
    case Dial(_, _) => s.packet.Dialling?
    case Count => s.packet.Dialled?
    case Store => s.packet.Counted?
    case Spawn => s.packet.Stored?
    case Write(_, ok) => s.packet.Writing? && (ok ==> s.packet.id in s.open)
    case DropUnwritable => s.packet.Deleting?
    case CloseUnwritable => s.packet.Closing?
  }

  function NewSession(s: State, key: Key, now: int): State {
    var id := s.next;
    s.(packet := Dialled(key, id), next := id + 1, open := s.open + {id},
       keyOf := s.keyOf[id := key], active := s.active[id := now])
  }

  function PacketStep(s: State, p: PacketEvent): State
    requires PacketEnabled(s, p)
  {
    match p
    case PollPackets => s.(packet := if s.shutdown then Returned else Reading)
    case NoPacket => s.(packet := Polling)
    case PacketFrom(key) => s.(packet := Received(key))
    case Lookup =>
      var key := s.packet.key;
      s.(packet := if key in s.clients then Writing(key, s.clients[key]) else Dialling(key))
    case Dial(now, ok) => if ok then NewSession(s, s.packet.key, now) else s.(packet := Polling)
    case Count => s.(packet := Counted(s.packet.key, s.packet.id), group := s.group + 1)
    case Store =>
      s.(packet := Stored(s.packet.key, s.packet.id), clients := s.clients[s.packet.key := s.packet.id])
    case Spawn =>
      s.(packet := Writing(s.packet.key, s.packet.id), loops := s.loops[s.packet.id := LoopPolling])
    case Write(now, ok) =>
      s.(packet := if ok then Polling else Deleting(s.packet.key, s.packet.id), active := s.active[s.packet.id := now])
    case DropUnwritable => s.(packet := Closing(s.packet.id), clients := s.clients - {s.packet.key})
    case CloseUnwritable => s.(packet := Polling, open := s.open - {s.packet.id})
  }

  // ----- a session's return loop

  predicate LoopAt(s: State, id: Id, pc: Loop) {
    id in s.loops && s.loops[id] == pc
  }

  predicate LoopEnabled(s: State, id: Id, l: LoopEvent) {
    match l
    case PollReplies => LoopAt(s, id, LoopPolling)
    case Read(outcome) => LoopAt(s, id, LoopReading) && (id in s.open || outcome.ReadFailed?)
    case DropFailed => LoopAt(s, id, LoopDeleting)
    case CloseFailed => LoopAt(s, id, LoopClosing)
    case Return => LoopAt(s, id, LoopReturning)
  }

  function LoopStep(s: State, id: Id, l: LoopEvent): State
    requires LoopEnabled(s, id, l)
  {
    match l
    case PollReplies => s.(loops := s.loops[id := if s.shutdown then LoopReturning else LoopReading])
    case Read(outcome) =>
      s.(loops := s.loops[id := if outcome.TimedOut? || outcome.Replied? then LoopPolling else LoopDeleting],
         active := if outcome.Replied? then s.active[id := outcome.now] else s.active)
    case DropFailed =>
      s.(loops := s.loops[id := LoopClosing], clients := if id in s.keyOf then s.clients - {s.keyOf[id]} else s.clients)
    case CloseFailed => s.(loops := s.loops[id := LoopReturning], open := s.open - {id})
    case Return => s.(loops := s.loops - {id}, group := s.group - 1)
  }

  // ----- the expiry sweeper

  predicate SweepEnabled(s: State, w: SweepEvent) {
    match w
    case Tick(_, _, range) => s.sweeper.Waiting? && s.clients.Keys <= range
    case Visit(key) => s.sweeper.Collecting? && key in s.sweeper.ahead
    case Collected => s.sweeper.Collecting? && s.sweeper.ahead == {}
    case NextExpired => s.sweeper.Sweeping?
    case DropExpired => s.sweeper.SweepDeleting?
    case CloseExpired => s.sweeper.SweepClosing?
    case Stop => s.sweeper.Waiting? && s.shutdown
  }

  function Expire(clients: map<Key, Id>, keys: seq<Key>): Sweeper {
    if keys == [] then Waiting
    else if keys[0] in clients then SweepDeleting(keys[0], clients[keys[0]], keys[1..])
    else Sweeping(keys[1..])
  }

  function SweepStep(s: State, w: SweepEvent): State
    requires SweepEnabled(s, w)
  {
    match w
    case Tick(now, timeout, range) => s.(sweeper := Collecting(now - timeout, range, []))
    case Visit(key) =>
      var expired := s.sweeper.keys + (if s.IdleSince(key, s.sweeper.before) then [key] else []);
      s.(sweeper := Collecting(s.sweeper.before, s.sweeper.ahead - {key}, expired))
    case Collected => s.(sweeper := Sweeping(s.sweeper.keys))
    case NextExpired =>
      s.(sweeper := Expire(s.clients, s.sweeper.keys))
    case DropExpired =>
      s.(sweeper := SweepClosing(s.sweeper.id, s.sweeper.rest), clients := s.clients - {s.sweeper.key})
    case CloseExpired => s.(sweeper := Sweeping(s.sweeper.rest), open := s.open - {s.sweeper.id})
    case Stop => s.(sweeper := Stopped, group := s.group - 1)
  }

  // ----- the caller of Close

  predicate CloseEnabled(s: State, c: CloseEvent) {
    match c
    case Close(_) => s.closer.NotCalled?
    case CloseSocket(key) => s.closer.Ranging? && key in s.closer.keys
    case Ranged => s.closer.Ranging? && s.closer.keys == {}
    case Waited => s.closer.AwaitingGroup? && s.group == 0
  }

  function CloseStep(s: State, c: CloseEvent): State
    requires CloseEnabled(s, c)
  {
    match c
    case Close(later) => s.(shutdown := true, closer := Ranging(s.clients.Keys + later))
    case CloseSocket(key) =>
      s.(closer := Ranging(s.closer.keys - {key}),
         open := if key in s.clients then s.open - {s.clients[key]} else s.open)
    case Ranged => s.(closer := AwaitingGroup)
    case Waited => s.(closer := Finished)
  }

  // ----- runs

  predicate IsRun(s: State, es: seq<Event>)
    decreases |es|, 0
  {
    es != [] ==> IsRun(s, es[..|es| - 1]) && Enabled(Run(s, es[..|es| - 1]), es[|es| - 1])
  }

  function Run(s: State, es: seq<Event>): State
    requires IsRun(s, es)
    decreases |es|, 1
  {
    if es == [] then s else Step(Run(s, es[..|es| - 1]), es[|es| - 1])
  }

  // ----- what every reachable state satisfies

  /** Sessions are numbered, and each is only ever mapped under its own client. */
  predicate Numbered(s: State) {
    && (forall id :: id in s.keyOf ==> id < s.next)
    && s.open <= s.keyOf.Keys
    && s.loops.Keys <= s.keyOf.Keys
    && s.active.Keys == s.keyOf.Keys
    && (forall k | k in s.clients :: s.clients[k] in s.keyOf && s.keyOf[s.clients[k]] == k && !s.Pending(s.clients[k]))
  }

  predicate PacketOk(s: State) {
    match s.packet
    case Dialling(k) => k !in s.clients
    case Dialled(k, id) => id in s.keyOf && s.keyOf[id] == k && id in s.open && id !in s.loops && k !in s.clients
    case Counted(k, id) => id in s.keyOf && s.keyOf[id] == k && id in s.open && id !in s.loops && k !in s.clients
    case Stored(k, id) => id in s.keyOf && s.keyOf[id] == k && id !in s.loops
    case Writing(k, id) => id in s.keyOf && s.keyOf[id] == k
    case Deleting(k, id) => id in s.keyOf && s.keyOf[id] == k
    case Closing(id) => id in s.keyOf && !s.Mapped(id)
    case _ => true
  }

  predicate SweeperOk(s: State) {
    match s.sweeper
    case SweepDeleting(k, id, _) => id in s.keyOf && s.keyOf[id] == k && !s.Pending(id)
    case SweepClosing(id, _) => id in s.keyOf && !s.Mapped(id) && !s.Pending(id)
    case Stopped => s.shutdown
    case _ => true
  }

  predicate LoopsOk(s: State) {
    forall id | id in s.loops :: s.loops[id].LoopClosing? ==> !s.Mapped(id)
  }

  /** A session whose return loop is neither past its delete nor gone. */
  predicate Live(s: State, id: Id) {
    id in s.loops && (s.loops[id].LoopPolling? || s.loops[id].LoopReading? || s.loops[id].LoopDeleting?)
  }

  /** Before shutdown, every mapped session has an open socket and its return loop, or is about to get it. */
  predicate MappedOk(s: State) {
    forall k | k in s.clients ::
      s.clients[k] in s.open && (Live(s, s.clients[k]) || s.packet == Stored(k, s.clients[k]))
  }

  function AsCount(b: bool): int {
    if b then 1 else 0
  }

  /** The wait group counts the live return loops, the sweeper, and the loop that is about to be started. */
  predicate GroupOk(s: State) {
    s.group == |s.loops| + AsCount(!s.sweeper.Stopped?) + AsCount(s.packet.Counted? || s.packet.Stored?)
  }

  predicate CloserOk(s: State) {
    s.shutdown <==> !s.closer.NotCalled?
  }

  /** What each goroutine in the middle of something relies on. */
  predicate GoroutinesOk(s: State) {
    PacketOk(s) && SweeperOk(s) && LoopsOk(s)
  }

  predicate Promised(s: State) {
    GroupOk(s) && CloserOk(s) && (!s.shutdown ==> MappedOk(s))
  }

  predicate Inv(s: State) {
    Numbered(s) && GoroutinesOk(s) && Promised(s)
  }

  // ----- the invariant over all runs

  lemma PacketKeepsNumbers(s: State, p: PacketEvent)
    requires Inv(s) && PacketEnabled(s, p)
    ensures Numbered(PacketStep(s, p))
  {
    hide LoopsOk, GroupOk, CloserOk, MappedOk;
  }

  lemma PacketKeepsGoroutines(s: State, p: PacketEvent)
    requires Inv(s) && PacketEnabled(s, p)
    ensures GoroutinesOk(PacketStep(s, p))
  {
    hide GroupOk, CloserOk, MappedOk;
  }

  lemma PacketKeepsPromises(s: State, p: PacketEvent)
    requires Inv(s) && PacketEnabled(s, p)
    ensures Promised(PacketStep(s, p))
  {
  }

  lemma PacketKeepsInv(s: State, p: PacketEvent)
    requires Inv(s) && PacketEnabled(s, p)
    ensures Inv(PacketStep(s, p))
  {
    PacketKeepsNumbers(s, p);
    PacketKeepsGoroutines(s, p);
    PacketKeepsPromises(s, p);
  }

  lemma LoopKeepsNumbers(s: State, id: Id, l: LoopEvent)
    requires Inv(s) && LoopEnabled(s, id, l)
    ensures Numbered(LoopStep(s, id, l))
  {
    hide LoopsOk, GroupOk, CloserOk, MappedOk;
  }

  lemma LoopKeepsGoroutines(s: State, id: Id, l: LoopEvent)
    requires Inv(s) && LoopEnabled(s, id, l)
    ensures GoroutinesOk(LoopStep(s, id, l))
  {
    hide GroupOk, CloserOk, MappedOk;
  }

  lemma LoopKeepsPromises(s: State, id: Id, l: LoopEvent)
    requires Inv(s) && LoopEnabled(s, id, l)
    ensures Promised(LoopStep(s, id, l))
  {
    assert l.Return? ==> (s.loops - {id}).Keys == s.loops.Keys - {id};
  }

  lemma LoopKeepsInv(s: State, id: Id, l: LoopEvent)
    requires Inv(s) && LoopEnabled(s, id, l)
    ensures Inv(LoopStep(s, id, l))
  {
    LoopKeepsNumbers(s, id, l);
    LoopKeepsGoroutines(s, id, l);
    LoopKeepsPromises(s, id, l);
  }

  lemma SweepKeepsNumbers(s: State, w: SweepEvent)
    requires Inv(s) && SweepEnabled(s, w)
    ensures Numbered(SweepStep(s, w))
  {
    hide LoopsOk, GroupOk, CloserOk, MappedOk;
  }

  lemma SweepKeepsGoroutines(s: State, w: SweepEvent)
    requires Inv(s) && SweepEnabled(s, w)
    ensures GoroutinesOk(SweepStep(s, w))
  {
    hide GroupOk, CloserOk, MappedOk;
  }

  lemma SweepKeepsPromises(s: State, w: SweepEvent)
    requires Inv(s) && SweepEnabled(s, w)
    ensures Promised(SweepStep(s, w))
  {
  }

  lemma SweepKeepsInv(s: State, w: SweepEvent)
    requires Inv(s) && SweepEnabled(s, w)
    ensures Inv(SweepStep(s, w))
  {
    SweepKeepsNumbers(s, w);
    SweepKeepsGoroutines(s, w);
    SweepKeepsPromises(s, w);
  }

  lemma CloseKeepsInv(s: State, c: CloseEvent)
    requires Inv(s) && CloseEnabled(s, c)
    ensures Inv(CloseStep(s, c))
  {
  }

  lemma StepKeepsInv(s: State, e: Event)
    requires Inv(s) && Enabled(s, e)
    ensures Inv(Step(s, e))
  {
    match e
    case OfPacketLoop(p) => PacketKeepsInv(s, p);
    case OfReturnLoop(id, l) => LoopKeepsInv(s, id, l);
    case OfSweeper(w) => SweepKeepsInv(s, w);
    case OfClose(c) => CloseKeepsInv(s, c);
  }

  lemma {:induction false} RunKeepsInv(s: State, es: seq<Event>)
    requires Inv(s) && IsRun(s, es)
    ensures Inv(Run(s, es))
    decreases |es|
  {
    if es != [] {
      RunKeepsInv(s, es[..|es| - 1]);
      StepKeepsInv(Run(s, es[..|es| - 1]), es[|es| - 1]);
    }
  }

  /**
   After any interleaving: the wait group counts the return loops, the sweeper and a loop about to start, so
   `Done` is never called too often; and until `Close`, whatever the map leads to has an open socket, a return
   loop of its own, and no other client.
   */
  lemma SessionsServed(es: seq<Event>)
    requires IsRun(START, es)
    ensures var s := Run(START, es);
      && 0 <= s.group == |s.loops| + AsCount(!s.sweeper.Stopped?) + AsCount(s.packet.Counted? || s.packet.Stored?)
      && (!s.shutdown ==> forall k | k in s.clients ::
            && s.clients[k] in s.open
            && (Live(s, s.clients[k]) || s.packet == Stored(k, s.clients[k]))
            && (forall j | j in s.clients && s.clients[j] == s.clients[k] :: j == k))
  {
    RunKeepsInv(START, es);
  }

  // ----- deleting by client rather than by session

  /** The step removes the map's entry for a session other than the one being given up. */
  predicate DropsAnother(s: State, e: Event)
    requires Enabled(s, e)
  {
    match e
    case OfPacketLoop(DropUnwritable) => s.packet.key in s.clients && s.clients[s.packet.key] != s.packet.id
    case OfReturnLoop(id, DropFailed) => id in s.keyOf && s.keyOf[id] in s.clients && s.clients[s.keyOf[id]] != id
    case OfSweeper(DropExpired) => s.sweeper.key in s.clients && s.clients[s.sweeper.key] != s.sweeper.id
    case _ => false
  }

  /** Somebody will find the session: through the map, or because it is being set up or closed right now. */
  predicate Accounted(s: State, id: Id) {
    || s.Mapped(id)
    || s.Pending(id)
    || s.packet == Closing(id)
    || LoopAt(s, id, LoopClosing)
    || (s.sweeper.SweepClosing? && s.sweeper.id == id)
  }

  predicate NoOrphans(s: State) {
    forall id | id in s.open :: Accounted(s, id)
  }

  /** Until `Close`, a step leaves an open session nobody will find exactly when it drops another's entry. */
  lemma StepMakesOrphan(s: State, e: Event)
    requires Inv(s) && !s.shutdown && NoOrphans(s) && Enabled(s, e)
    ensures NoOrphans(Step(s, e)) <==> !DropsAnother(s, e)
  {
    match e
    case OfPacketLoop(p) => PacketMakesOrphan(s, p);
    case OfReturnLoop(id, l) => LoopMakesOrphan(s, id, l);
    case OfSweeper(w) => SweepMakesOrphan(s, w);
    case OfClose(c) =>
  }

  lemma PacketMakesOrphan(s: State, p: PacketEvent)
    requires Inv(s) && !s.shutdown && NoOrphans(s) && PacketEnabled(s, p)
    ensures NoOrphans(PacketStep(s, p)) <==> !DropsAnother(s, OfPacketLoop(p))
  {
    hide GroupOk, CloserOk;
    if p.DropUnwritable? && s.packet.key in s.clients {
      var other := s.clients[s.packet.key];
      assert other in s.open;
      assert other != s.packet.id ==> !Accounted(PacketStep(s, p), other);
    }
  }

  lemma LoopMakesOrphan(s: State, id: Id, l: LoopEvent)
    requires Inv(s) && !s.shutdown && NoOrphans(s) && LoopEnabled(s, id, l)
    ensures NoOrphans(LoopStep(s, id, l)) <==> !DropsAnother(s, OfReturnLoop(id, l))
  {
    hide GroupOk, CloserOk;
    if l.DropFailed? && s.keyOf[id] in s.clients {
      var key := s.keyOf[id];
      var other := s.clients[key];
      assert other in s.open;
      assert other != id ==> !Accounted(LoopStep(s, id, l), other);
    }
  }

  lemma SweepMakesOrphan(s: State, w: SweepEvent)
    requires Inv(s) && !s.shutdown && NoOrphans(s) && SweepEnabled(s, w)
    ensures NoOrphans(SweepStep(s, w)) <==> !DropsAnother(s, OfSweeper(w))
  {
    hide GroupOk, CloserOk;
    if w.DropExpired? && s.sweeper.key in s.clients {
      var other := s.clients[s.sweeper.key];
      assert other in s.open;
      assert other != s.sweeper.id ==> !Accounted(SweepStep(s, w), other);
    }
  }

  /** The session has been given up, or dropped: the map no longer leads to it and never will again. */
  predicate Unreachable(s: State, id: Id) {
    id in s.keyOf && !s.Mapped(id) && !s.Pending(id)
  }

  lemma PacketStaysUnreachable(s: State, p: PacketEvent, id: Id)
    requires Inv(s) && PacketEnabled(s, p) && Unreachable(s, id)
    ensures Unreachable(PacketStep(s, p), id)
  {
    hide GroupOk, CloserOk, MappedOk, LoopsOk;
  }

  lemma LoopStaysUnreachable(s: State, other: Id, l: LoopEvent, id: Id)
    requires Inv(s) && LoopEnabled(s, other, l) && Unreachable(s, id)
    ensures Unreachable(LoopStep(s, other, l), id)
  {
    hide GroupOk, CloserOk, MappedOk, LoopsOk;
  }

  lemma SweepStaysUnreachable(s: State, w: SweepEvent, id: Id)
    requires Inv(s) && SweepEnabled(s, w) && Unreachable(s, id)
    ensures Unreachable(SweepStep(s, w), id)
  {
    hide GroupOk, CloserOk, MappedOk, LoopsOk;
  }

  lemma CloseStaysUnreachable(s: State, c: CloseEvent, id: Id)
    requires CloseEnabled(s, c) && Unreachable(s, id)
    ensures Unreachable(CloseStep(s, c), id)
  {
  }

  lemma StaysUnreachable(s: State, e: Event, id: Id)
    requires Inv(s) && Enabled(s, e) && Unreachable(s, id)
    ensures Unreachable(Step(s, e), id)
  {
    hide Inv, Unreachable, PacketStep, LoopStep, SweepStep, CloseStep;
    match e
    case OfPacketLoop(p) => PacketStaysUnreachable(s, p, id);
    case OfReturnLoop(other, l) => LoopStaysUnreachable(s, other, l, id);
    case OfSweeper(w) => SweepStaysUnreachable(s, w, id);
    case OfClose(c) => CloseStaysUnreachable(s, c, id);
  }

  /** Once a session is out of the map it stays out, so no later sweep or packet ever reaches it. */
  lemma {:induction false} OrphanStays(s: State, es: seq<Event>, id: Id)
    requires Inv(s) && IsRun(s, es) && Unreachable(s, id)
    ensures Unreachable(Run(s, es), id)
    decreases |es|
  {
    if es != [] {
      RunKeepsInv(s, es[..|es| - 1]);
      OrphanStays(s, es[..|es| - 1], id);
      StaysUnreachable(Run(s, es[..|es| - 1]), es[|es| - 1], id);
    }
  }

  /** No step of the run drops another session's entry. */
  predicate Harmless(s: State, es: seq<Event>)
    requires IsRun(s, es)
  {
    es != [] ==>
      Harmless(s, es[..|es| - 1]) && !DropsAnother(Run(s, es[..|es| - 1]), es[|es| - 1])
  }

  lemma StaysShut(s: State, e: Event)
    requires Enabled(s, e)
    ensures s.shutdown ==> Step(s, e).shutdown
  {
    match e
    case OfPacketLoop(p) => assert PacketStep(s, p).shutdown == s.shutdown;
    case OfReturnLoop(id, l) => assert LoopStep(s, id, l).shutdown == s.shutdown;
    case OfSweeper(w) => assert SweepStep(s, w).shutdown == s.shutdown;
    case OfClose(c) =>
  }

  /** As long as every delete meets the session it was meant for, every open socket can still be found. */
  lemma {:induction false} HarmlessRunLeavesNoOrphans(s: State, es: seq<Event>)
    requires Inv(s) && NoOrphans(s)
    requires IsRun(s, es) && Harmless(s, es) && !Run(s, es).shutdown
    ensures NoOrphans(Run(s, es))
    decreases |es|
  {
    if es != [] {
      var before, e := es[..|es| - 1], es[|es| - 1];
      StaysShut(Run(s, before), e);
      HarmlessRunLeavesNoOrphans(s, before);
      RunKeepsInv(s, before);
      StepMakesOrphan(Run(s, before), e);
    }
  }

  predicate AwaitsReplies(s: State, id: Id) {
    LoopAt(s, id, LoopPolling) || LoopAt(s, id, LoopReading)
  }

  /** Reading a session's socket fails, or passing a reply on does, or its loop finds the forwarder shut down. */
  predicate Gives(s: State, e: Event, id: Id) {
    e.OfReturnLoop? && e.id == id
    && ((e.l.Read? && (e.l.outcome.ReadFailed? || e.l.outcome.ReplyFailed?)) || (e.l.PollReplies? && s.shutdown))
  }

  /** Until then a return loop goes on waiting for replies, however often reading times out. */
  lemma LoopGoesOn(s: State, e: Event, id: Id)
    requires Inv(s) && Enabled(s, e) && AwaitsReplies(s, id)
    ensures AwaitsReplies(Step(s, e), id) <==> !Gives(s, e, id)
  {
    hide Numbered, LoopsOk, Promised;
    match e
    case OfPacketLoop(p) => PacketLeavesLoop(s, p, id);
    case OfReturnLoop(other, l) => OwnLoopGoesOn(s, other, l, id);
    case OfSweeper(w) => assert SweepStep(s, w).loops == s.loops;
    case OfClose(c) => assert CloseStep(s, c).loops == s.loops;
  }

  lemma PacketLeavesLoop(s: State, p: PacketEvent, id: Id)
    requires PacketOk(s) && PacketEnabled(s, p) && AwaitsReplies(s, id)
    ensures AwaitsReplies(PacketStep(s, p), id)
  {
    assert !p.Spawn? ==> PacketStep(s, p).loops == s.loops;
  }

  lemma OwnLoopGoesOn(s: State, other: Id, l: LoopEvent, id: Id)
    requires LoopEnabled(s, other, l) && AwaitsReplies(s, id)
    ensures AwaitsReplies(LoopStep(s, other, l), id) <==> !Gives(s, OfReturnLoop(other, l), id)
  {
  }

  lemma AtFirst(s: State)
    ensures IsRun(s, []) && Run(s, []) == s
  {
  }

  lemma Then(s: State, es: seq<Event>, t: State, e: Event)
    requires IsRun(s, es) && Run(s, es) == t && Enabled(t, e)
    ensures IsRun(s, es + [e]) && Run(s, es + [e]) == Step(t, e)
  {
    assert (es + [e])[..|es|] == es;
  }

  /** A client's first packet: the session is dialled, counted, mapped and gets its return loop. */
  lemma FirstPacket(es: seq<Event>, s: State, key: Key, now: int) returns (fs: seq<Event>, t: State)
    requires IsRun(START, es) && Run(START, es) == s
    requires s.packet.Polling? && !s.shutdown && s.closer.NotCalled? && key !in s.clients
    ensures IsRun(START, fs) && Run(START, fs) == t
    ensures t == s.(packet := Writing(key, s.next), next := s.next + 1, open := s.open + {s.next},
                    keyOf := s.keyOf[s.next := key], active := s.active[s.next := now], group := s.group + 1,
                    clients := s.clients[key := s.next], loops := s.loops[s.next := LoopPolling])
  {
    hide Run, IsRun;
    var steps := [PollPackets, PacketFrom(key), Lookup, Dial(now, true), Count, Store, Spawn];
    fs, t := es, s;
    for i := 0 to |steps|
      invariant IsRun(START, fs) && Run(START, fs) == t
      invariant i == 0 ==> t == s
      invariant i == 1 ==> t == s.(packet := Reading)
      invariant i == 2 ==> t == s.(packet := Received(key))
      invariant i == 3 ==> t == s.(packet := Dialling(key))
      invariant i == 4 ==> t == NewSession(s, key, now)
      invariant i == 5 ==> t == NewSession(s, key, now).(packet := Counted(key, s.next), group := s.group + 1)
      invariant i == 6 ==> t == NewSession(s, key, now).(packet := Stored(key, s.next), group := s.group + 1,
                                                         clients := s.clients[key := s.next])
      invariant i == 7 ==> t == NewSession(s, key, now).(packet := Writing(key, s.next), group := s.group + 1,
                                                         clients := s.clients[key := s.next],
                                                         loops := s.loops[s.next := LoopPolling])
    {
      Then(START, fs, t, OfPacketLoop(steps[i]));
      fs, t := fs + [OfPacketLoop(steps[i])], Step(t, OfPacketLoop(steps[i]));
    }
  }

  /** The first session's return loop fails, and before it deletes anything so does the next packet's write. */
  lemma FailsTwice(es: seq<Event>, s: State) returns (fs: seq<Event>, t: State)
    requires IsRun(START, es) && Run(START, es) == s && !s.shutdown
    requires s.packet == Writing(7, 0) && s.loops == map[0 := LoopPolling] && s.open == {0}
    requires s.clients == map[7 := 0]
    ensures IsRun(START, fs) && Run(START, fs) == t
    ensures t == s.(packet := Polling, loops := map[0 := LoopDeleting], open := {}, clients := map[],
                    active := s.active[0 := 0])
  {
    hide Run, IsRun;
    var steps := [OfReturnLoop(0, PollReplies), OfReturnLoop(0, Read(ReadFailed)), OfPacketLoop(Write(0, false)),
                  OfPacketLoop(DropUnwritable), OfPacketLoop(CloseUnwritable)];
    var failing := map[0 := LoopDeleting];
    fs, t := es, s;
    for i := 0 to |steps|
      invariant IsRun(START, fs) && Run(START, fs) == t
      invariant i == 0 ==> t == s
      invariant i == 1 ==> t == s.(loops := map[0 := LoopReading])
      invariant i == 2 ==> t == s.(loops := failing)
      invariant i == 3 ==> t == s.(loops := failing, active := s.active[0 := 0], packet := Deleting(7, 0))
      invariant i == 4 ==> t == s.(loops := failing, active := s.active[0 := 0], packet := Closing(0),
                                   clients := map[])
      invariant i == 5 ==> t == s.(loops := failing, active := s.active[0 := 0], packet := Polling,
                                   clients := map[], open := {})
    {
      Then(START, fs, t, steps[i]);
      fs, t := fs + [steps[i]], Step(t, steps[i]);
    }
  }

  /**
   Such a run exists. The return loop of a client's first session fails and is about to delete the client's entry;
   meanwhile the packet loop gives up the same session on a failed write and sets up a second one; the delete then
   takes the second session out of the map, open and served but out of reach.
   */
  lemma DropsTheNewSession() returns (es: seq<Event>)
    ensures IsRun(START, es)
    ensures var s := Run(START, es);
      !s.shutdown && s.open == {1} && s.clients == map[] && s.keyOf == map[0 := 7, 1 := 7] && Live(s, 1) &&
      !NoOrphans(s)
  {
    hide Run, IsRun;
    var s: State;
    AtFirst(START);
    es, s := FirstPacket([], START, 7, 0);
    es, s := FailsTwice(es, s);
    es, s := FirstPacket(es, s, 7, 0);
    var e := OfReturnLoop(0, DropFailed);
    Then(START, es, s, e);
    es, s := es + [e], Step(s, e);
    assert 1 in s.open && !Accounted(s, 1);
  }

  // ----- shutting down

  /** `Close` returns only when every return loop and the sweeper have stopped and none is about to start. */
  lemma ReturnsWhenStopped(es: seq<Event>, i: nat)
    requires IsRun(START, es) && i < |es| && es[i] == OfClose(Waited)
    ensures IsRun(START, es[..i])
    ensures var s := Run(START, es[..i]);
            s.loops == map[] && s.sweeper.Stopped? && !s.packet.Counted? && !s.packet.Stored? && s.shutdown
  {
    PrefixIsRun(es, i + 1);
    assert es[..i + 1][..i] == es[..i];
    RunKeepsInv(START, es[..i]);
  }

  /** And nothing is sent to or received from a session whose socket has been closed. */
  lemma UsesOpenSockets(es: seq<Event>, i: nat, now: int)
    requires IsRun(START, es) && i < |es|
    ensures IsRun(START, es[..i])
    ensures es[i] == OfPacketLoop(Write(now, true)) ==>
              Run(START, es[..i]).packet.Writing? && Run(START, es[..i]).packet.id in Run(START, es[..i]).open
    ensures es[i].OfReturnLoop? && es[i].l.Read? && !es[i].l.outcome.ReadFailed? ==>
              es[i].id in Run(START, es[..i]).open
  {
    PrefixIsRun(es, i + 1);
    assert es[..i + 1][..i] == es[..i];
  }

  lemma {:induction false} PrefixIsRun(es: seq<Event>, n: nat)
    requires IsRun(START, es) && n <= |es|
    ensures IsRun(START, es[..n])
    decreases |es|
  {
    if n < |es| {
      PrefixIsRun(es[..|es| - 1], n);
      assert es[..|es| - 1][..n] == es[..n];
    } else {
      assert es[..n] == es;
    }
  }

  /** `Close` closes the main socket last, so packets are received while it ranges over the sessions. */
  lemma {:induction false} ListensUntilRanged(es: seq<Event>)
    requires IsRun(START, es)
    ensures Run(START, es).Listening() <==> OfClose(Ranged) !in es
  {
    if es != [] {
      var before, e := es[..|es| - 1], es[|es| - 1];
      ListensUntilRanged(before);
      StopsListening(Run(START, before), e);
      assert es == before + [e];
    }
  }

  lemma StopsListening(s: State, e: Event)
    requires Enabled(s, e)
    ensures Step(s, e).Listening() <==> s.Listening() && e != OfClose(Ranged)
  {
    match e
    case OfPacketLoop(p) => assert PacketStep(s, p).closer == s.closer;
    case OfReturnLoop(id, l) => assert LoopStep(s, id, l).closer == s.closer;
    case OfSweeper(w) => assert SweepStep(s, w).closer == s.closer;
    case OfClose(c) =>
  }

  function PacketRank(p: Packet): nat {
    match p
    case Returned => 0
    case Polling => 1
    case Closing(_) => 2
    case Deleting(_, _) => 3
    case Writing(_, _) => 4
    case Stored(_, _) => 7
    case Counted(_, _) => 8
    case Dialled(_, _) => 9
    case Dialling(_) => 10
    case Received(_) => 11
    case Reading => 12
  }

  function LoopRank(l: Loop): nat {
    match l
    case LoopReturning => 1
    case LoopPolling => 2
    case LoopClosing => 2
    case LoopDeleting => 3
    case LoopReading => 4
  }

  function LoopRanks(loops: map<Id, Loop>): map<Id, int> {
    map id | id in loops :: LoopRank(loops[id])
  }

  function SweepRank(w: Sweeper): nat {
    match w
    case Stopped => 0
    case Waiting => 1
    case SweepClosing(_, rest) => 3 + 3 * |rest|
    case SweepDeleting(_, _, rest) => 4 + 3 * |rest|
    case Sweeping(keys) => 2 + 3 * |keys|
    case Collecting(_, ahead, keys) => 3 + 3 * |keys| + 4 * |ahead|
  }

  function CloseRank(c: Closer): nat {
    match c
    case Finished => 0
    case AwaitingGroup => 1
    case Ranging(keys) => 2 + |keys|
    case NotCalled => 0
  }

  ghost function Rank(s: State): int {
    PacketRank(s.packet) + Sum(LoopRanks(s.loops)) + SweepRank(s.sweeper) + CloseRank(s.closer)
  }

  /** What a sweep that begins in spite of the shutdown still has to do, for the keys it ranges over. */
  function Allowance(e: Event): nat {
    match e
    case OfSweeper(Tick(_, _, range)) => 3 + 4 * |range|
    case _ => 0
  }

  function Allowances(es: seq<Event>): nat {
    if es == [] then 0 else Allowances(es[..|es| - 1]) + Allowance(es[|es| - 1])
  }

  lemma LoopDrains(s: State, id: Id, l: LoopEvent)
    requires s.shutdown && LoopEnabled(s, id, l)
    ensures 1 + Rank(LoopStep(s, id, l)) <= Rank(s)
  {
    var before, after := s.loops, LoopStep(s, id, l).loops;
    if l.Return? {
      SumWithout(LoopRanks(before), id);
      assert LoopRanks(after) == LoopRanks(before) - {id};
    } else {
      SumUpdated(LoopRanks(before), id, LoopRank(after[id]));
      assert LoopRanks(after) == LoopRanks(before)[id := LoopRank(after[id])];
    }
  }

  lemma PacketDrains(s: State, p: PacketEvent)
    requires s.shutdown && PacketEnabled(s, p) && (p.Spawn? ==> s.packet.id !in s.loops)
    ensures 1 + Rank(PacketStep(s, p)) <= Rank(s)
  {
    var t := PacketStep(s, p);
    if p.Spawn? {
      SumUpdated(LoopRanks(s.loops), s.packet.id, 2);
      assert LoopRanks(t.loops) == LoopRanks(s.loops)[s.packet.id := 2];
    } else {
      assert t.loops == s.loops;
    }
    assert PacketRank(t.packet) < PacketRank(s.packet);
  }

  lemma SweepDrains(s: State, w: SweepEvent)
    requires s.shutdown && SweepEnabled(s, w)
    ensures 1 + Rank(SweepStep(s, w)) <= Rank(s) + Allowance(OfSweeper(w))
  {
    assert SweepStep(s, w).loops == s.loops;
  }

  lemma CloseDrains(s: State, c: CloseEvent)
    requires s.shutdown && !s.closer.NotCalled? && CloseEnabled(s, c)
    ensures 1 + Rank(CloseStep(s, c)) <= Rank(s)
  {
    assert CloseStep(s, c).loops == s.loops;
  }

  lemma StepDrains(s: State, e: Event)
    requires Inv(s) && s.shutdown && Enabled(s, e)
    ensures Step(s, e).shutdown
    ensures 1 + Rank(Step(s, e)) <= Rank(s) + Allowance(e)
  {
    match e
    case OfPacketLoop(p) => PacketDrains(s, p);
    case OfReturnLoop(id, l) => LoopDrains(s, id, l);
    case OfSweeper(w) => SweepDrains(s, w);
    case OfClose(c) => CloseDrains(s, c);
  }

  /** After `Close` is called only a bounded number of steps remain, whoever takes them. */
  lemma {:induction false} Drains(s: State, es: seq<Event>)
    requires Inv(s) && s.shutdown && IsRun(s, es)
    ensures Run(s, es).shutdown
    ensures |es| + Rank(Run(s, es)) <= Rank(s) + Allowances(es)
    decreases |es|
  {
    if es != [] {
      Drains(s, es[..|es| - 1]);
      RunKeepsInv(s, es[..|es| - 1]);
      StepDrains(Run(s, es[..|es| - 1]), es[|es| - 1]);
    }
  }

  ghost predicate Halted(s: State) {
    forall e: Event :: !Enabled(s, e)
  }

  function PacketMove(p: Packet): PacketEvent {
    match p
    case Reading => NoPacket
    case Received(_) => Lookup
    case Dialling(_) => Dial(0, false)
    case Dialled(_, _) => Count
    case Counted(_, _) => Store
    case Stored(_, _) => Spawn
    case Writing(_, _) => Write(0, false)
    case Deleting(_, _) => DropUnwritable
    case Closing(_) => CloseUnwritable
    case _ => PollPackets
  }

  function LoopMove(l: Loop): LoopEvent {
    match l
    case LoopPolling => PollReplies
    case LoopReading => Read(ReadFailed)
    case LoopDeleting => DropFailed
    case LoopClosing => CloseFailed
    case LoopReturning => Return
  }

  function SweepMove(w: Sweeper): SweepEvent {
    match w
    case Collecting(_, _, _) => Collected
    case Sweeping(_) => NextExpired
    case SweepDeleting(_, _, _) => DropExpired
    case SweepClosing(_, _) => CloseExpired
    case _ => Stop
  }

  lemma LoopsHalt(s: State)
    requires Halted(s)
    ensures s.loops == map[]
  {
    forall id: Id ensures id !in s.loops {
      assert !Enabled(s, OfReturnLoop(id, LoopMove(if id in s.loops then s.loops[id] else LoopPolling)));
    }
  }

  lemma SweeperHalts(s: State)
    requires s.shutdown && Halted(s)
    ensures s.sweeper.Stopped?
  {
    var ahead := if s.sweeper.Collecting? then s.sweeper.ahead else {};
    forall key: Key ensures key !in ahead {
      assert !Enabled(s, OfSweeper(Visit(key)));
    }
    assert ahead == {};
    assert !Enabled(s, OfSweeper(SweepMove(s.sweeper)));
  }

  lemma CloserHalts(s: State)
    requires CloserOk(s) && s.shutdown && s.group == 0 && Halted(s)
    ensures s.closer.Finished?
  {
    var keys := if s.closer.Ranging? then s.closer.keys else {};
    forall key: Key ensures key !in keys {
      assert !Enabled(s, OfClose(CloseSocket(key)));
    }
    assert keys == {};
    assert !Enabled(s, OfClose(Ranged)) && !Enabled(s, OfClose(Waited));
  }

  /** And when no step remains, everyone has stopped and `Close` has returned: nothing waits for ever. */
  lemma HaltedMeansDone(s: State)
    requires Inv(s) && s.shutdown
    ensures Halted(s) <==>
      s.packet.Returned? && s.loops == map[] && s.sweeper.Stopped? && s.closer.Finished?
    ensures Halted(s) ==> s.group == 0
  {
    if Halted(s) {
      assert !Enabled(s, OfPacketLoop(PacketMove(s.packet)));
      SweeperHalts(s);
      LoopsHalt(s);
      assert s.group == 0;
      CloserHalts(s);
    }
  }

  /** The packet loop has yet to count a session it is setting up, or will be when its lookup comes back empty. */
  predicate SettingUp(s: State) {
    s.packet.Dialled? || s.packet.Dialling? || (s.packet.Received? && s.packet.key !in s.clients)
  }

  /** `Close` has returned, with nothing left to wait for. */
  predicate Closed(s: State) {
    s.closer.Finished? && s.group == 0
  }

  lemma ClosedStays(s: State, e: Event)
    requires Inv(s) && Closed(s) && !SettingUp(s) && Enabled(s, e)
    ensures Closed(Step(s, e)) && !SettingUp(Step(s, e))
  {
    assert s.loops == map[] && s.sweeper.Stopped? && !s.packet.Counted? && !s.packet.Stored?;
    hide Inv;
    match e
    case OfPacketLoop(_) =>
    case OfReturnLoop(_, _) => assert false;
    case OfSweeper(_) => assert false;
    case OfClose(_) => assert false;
  }

  lemma {:induction false} ClosedStaysClosed(s: State, es: seq<Event>)
    requires Inv(s) && Closed(s) && !SettingUp(s) && IsRun(s, es)
    ensures Closed(Run(s, es)) && !SettingUp(Run(s, es))
    decreases |es|
  {
    if es != [] {
      ClosedStaysClosed(s, es[..|es| - 1]);
      RunKeepsInv(s, es[..|es| - 1]);
      ClosedStays(Run(s, es[..|es| - 1]), es[|es| - 1]);
    }
  }

  ghost predicate Reopens(s: State) {
    exists es :: IsRun(s, es) && Run(s, es).group > 0
  }

  lemma Reopening(s: State) returns (es: seq<Event>)
    requires Inv(s) && Closed(s) && SettingUp(s)
    ensures IsRun(s, es) && Run(s, es).group > 0
  {
    var t := s;
    es := [];
    if t.packet.Received? {
      Then(s, es, t, OfPacketLoop(Lookup));
      es, t := es + [OfPacketLoop(Lookup)], Step(t, OfPacketLoop(Lookup));
    }
    if t.packet.Dialling? {
      Then(s, es, t, OfPacketLoop(Dial(0, true)));
      es, t := es + [OfPacketLoop(Dial(0, true))], Step(t, OfPacketLoop(Dial(0, true)));
    }
    Then(s, es, t, OfPacketLoop(Count));
    es := es + [OfPacketLoop(Count)];
  }

  /**
   `Close` waits for every goroutine but the packet loop, which the group does not count. So the group can rise
   again after `Close` has returned exactly when the packet loop was then still on its way to a new session.
   */
  lemma ReopensAfterClose(s: State)
    requires Inv(s) && Closed(s)
    ensures Reopens(s) <==> SettingUp(s)
  {
    if SettingUp(s) {
      var es := Reopening(s);
    } else {
      forall es | IsRun(s, es) ensures Run(s, es).group == 0 {
        ClosedStaysClosed(s, es);
      }
    }
  }
}
