/** What the expiry sweeper of a running forwarder closes, told from the events before. */
module Sweeps {
  import opened Sessions
  import opened Wrappers

  // ----- histories

  /** The moment at which a step uses a session: dials it, writes to it, or passes on what was read from it. */
  function UseIn(s: State, e: Event, id: Id): Option<int>
    requires Enabled(s, e)
  {
    match e
    case OfPacketLoop(Dial(now, ok)) => if ok && s.next == id then Some(now) else None
    case OfPacketLoop(Write(now, _)) => if s.packet.id == id then Some(now) else None
    case OfReturnLoop(reader, Read(Replied(now))) => if reader == id then Some(now) else None
    case _ => None
  }

  function LastUse(es: seq<Event>, id: Id): Option<int>
    requires IsRun(START, es)
  {
    if es == [] then None
    else
      var before, e := es[..|es| - 1], es[|es| - 1];
      var used := UseIn(Run(START, before), e, id);
      if used.Some? then used else LastUse(before, id)
  }

  /** When the last sweep started, and the time a session may be idle. */
  function LastTick(es: seq<Event>): Option<(int, int)> {
    if es == [] then None
    else
      match es[|es| - 1]
      case OfSweeper(Tick(now, timeout, _)) => Some((now, timeout))
      case _ => LastTick(es[..|es| - 1])
  }

  /** The client has a session, last used longer before the sweep's start than a session may be idle. */
  predicate IdleClient(es: seq<Event>, key: Key)
    requires IsRun(START, es)
  {
    var clients := Run(START, es).clients;
    key in clients && LastTick(es).Some? && LastUse(es, clients[key]).Some?
    && LastTick(es).value.0 - LastUse(es, clients[key]).value > LastTick(es).value.1
  }

  /** The clients the last sweep has found idle when it came by them, in that order. */
  function FoundIdle(es: seq<Event>): seq<Key>
    requires IsRun(START, es)
  {
    if es == [] then []
    else
      var before, e := es[..|es| - 1], es[|es| - 1];
      match e
      case OfSweeper(Tick(_, _, _)) => []
      case OfSweeper(Visit(key)) => FoundIdle(before) + (if IdleClient(before, key) then [key] else [])
      case _ => FoundIdle(before)
  }

  // ----- the state and the histories

  function Active(s: State, id: Id): Option<int> {
    if id in s.active then Some(s.active[id]) else None
  }

  lemma PacketUses(s: State, p: PacketEvent, id: Id)
    requires PacketEnabled(s, p)
    ensures Active(PacketStep(s, p), id) ==
            if UseIn(s, OfPacketLoop(p), id).Some? then UseIn(s, OfPacketLoop(p), id) else Active(s, id)
  {
    if !(p.Dial? || p.Write?) {
      assert PacketStep(s, p).active == s.active;
    }
  }

  lemma LoopUses(s: State, reader: Id, l: LoopEvent, id: Id)
    requires LoopEnabled(s, reader, l)
    ensures Active(LoopStep(s, reader, l), id) ==
            if UseIn(s, OfReturnLoop(reader, l), id).Some? then UseIn(s, OfReturnLoop(reader, l), id) else Active(s, id)
  {
  }

  lemma StepUses(s: State, e: Event, id: Id)
    requires Enabled(s, e)
    ensures Active(Step(s, e), id) == if UseIn(s, e, id).Some? then UseIn(s, e, id) else Active(s, id)
  {
    match e
    case OfPacketLoop(p) => PacketUses(s, p, id);
    case OfReturnLoop(reader, l) => LoopUses(s, reader, l, id);
    case OfSweeper(w) => SweepUsesNothing(s, w);
    case OfClose(c) =>
  }

  lemma SweepUsesNothing(s: State, w: SweepEvent)
    requires SweepEnabled(s, w)
    ensures SweepStep(s, w).active == s.active
  {
  }

  lemma {:induction false} ActiveIsLastUse(es: seq<Event>, id: Id)
    requires IsRun(START, es)
    ensures LastUse(es, id) == Active(Run(START, es), id)
  {
    hide Step, UseIn, Enabled;
    if es != [] {
      ActiveIsLastUse(es[..|es| - 1], id);
      StepUses(Run(START, es[..|es| - 1]), es[|es| - 1], id);
    }
  }

  /** The clients a sweep has still to close, that being closed included. */
  function Left(w: Sweeper): seq<Key> {
    match w
    case Collecting(_, _, keys) => keys
    case Sweeping(keys) => keys
    case SweepDeleting(key, _, rest) => [key] + rest
    case SweepClosing(_, rest) => rest
    case _ => []
  }

  predicate EndsWith(all: seq<Key>, end: seq<Key>) {
    |end| <= |all| && all[|all| - |end|..] == end
  }

  predicate SweepsIdle(es: seq<Event>)
    requires IsRun(START, es)
  {
    var sweeper := Run(START, es).sweeper;
    && EndsWith(FoundIdle(es), Left(sweeper))
    && (sweeper.Collecting? ==>
          && sweeper.keys == FoundIdle(es)
          && LastTick(es).Some? && sweeper.before == LastTick(es).value.0 - LastTick(es).value.1)
  }

  /** However it is interleaved, what a sweep has still to close are the last of the clients it has found idle. */
  lemma {:induction false} ClosesWhatItFoundIdle(es: seq<Event>)
    requires IsRun(START, es)
    ensures SweepsIdle(es)
  {
    hide Step, SweepStep, Enabled, IdleClient, Dropped;
    if es != [] {
      var before, e := es[..|es| - 1], es[|es| - 1];
      assert Enabled(Run(START, before), e);
      ClosesWhatItFoundIdle(before);
      if !e.OfSweeper? {
        OthersLeaveIt(Run(START, before), e);
      } else if e.w.Visit? {
        VisitFinds(es);
      } else {
        var s := Run(START, before);
        SweepGoesOn(s, e);
        if Dropped(Left(s.sweeper), Left(Step(s, e).sweeper)) {
          EndOfEnd(FoundIdle(before), Left(s.sweeper), Left(Step(s, e).sweeper));
        }
      }
    }
  }

  lemma OthersLeaveIt(s: State, e: Event)
    requires Enabled(s, e) && !e.OfSweeper?
    ensures Step(s, e).sweeper == s.sweeper
  {
    match e
    case OfPacketLoop(p) => assert PacketStep(s, p).sweeper == s.sweeper;
    case OfReturnLoop(reader, l) => assert LoopStep(s, reader, l).sweeper == s.sweeper;
    case OfClose(c) => assert CloseStep(s, c).sweeper == s.sweeper;
  }

  /** A sweep starts with nothing, and goes through what it has found from the front. */
  lemma SweepGoesOn(s: State, e: Event)
    requires Enabled(s, e) && e.OfSweeper? && !e.w.Visit?
    ensures var before, after := s.sweeper, Step(s, e).sweeper;
            if e.w.Tick? then after == Collecting(e.w.now - e.w.timeout, e.w.range, [])
            else !after.Collecting? && (Left(after) == Left(before) || Dropped(Left(before), Left(after)))
  {
    var before := s.sweeper;
    if before.Sweeping? && before.keys != [] {
      assert [before.keys[0]] + before.keys[1..] == before.keys;
    } else if before.SweepDeleting? {
      assert ([before.key] + before.rest)[1..] == before.rest;
    }
  }

  predicate Dropped(all: seq<Key>, rest: seq<Key>) {
    all != [] && rest == all[1..]
  }

  lemma EndOfEnd(all: seq<Key>, end: seq<Key>, rest: seq<Key>)
    requires EndsWith(all, end) && Dropped(end, rest)
    ensures EndsWith(all, rest)
  {
    assert all[|all| - |end|..][1..] == all[|all| - |rest|..];
  }

  lemma NoTick(es: seq<Event>)
    requires es != [] && es[|es| - 1].OfSweeper? && !es[|es| - 1].w.Tick?
    ensures LastTick(es) == LastTick(es[..|es| - 1])
  {
  }

  lemma VisitFinds(es: seq<Event>)
    requires es != [] && IsRun(START, es) && SweepsIdle(es[..|es| - 1])
    requires es[|es| - 1].OfSweeper? && es[|es| - 1].w.Visit?
    ensures SweepsIdle(es)
  {
    hide LastUse, LastTick, UseIn, PacketStep, LoopStep, CloseStep, PacketEnabled, LoopEnabled, CloseEnabled;
    var before, key := es[..|es| - 1], es[|es| - 1].w.key;
    assert LastTick(es) == LastTick(before) by {
      NoTick(es);
    }
    var s := Run(START, before);
    if key in s.clients {
      ActiveIsLastUse(before, s.clients[key]);
    }
    assert s.IdleSince(key, s.sweeper.before) <==> IdleClient(before, key);
  }

  // ----- a sweep misses nobody

  /** The clients there were when the last sweep started. */
  function ClientsAtTick(es: seq<Event>): set<Key>
    requires IsRun(START, es)
  {
    if es == [] then {}
    else
      var before := es[..|es| - 1];
      match es[|es| - 1]
      case OfSweeper(Tick(_, _, _)) => Run(START, before).clients.Keys
      case _ => ClientsAtTick(before)
  }

  /** The clients it has come by since. */
  function CameBy(es: seq<Event>): set<Key> {
    if es == [] then {}
    else
      var before := es[..|es| - 1];
      match es[|es| - 1]
      case OfSweeper(Tick(_, _, _)) => {}
      case OfSweeper(Visit(key)) => CameBy(before) + {key}
      case _ => CameBy(before)
  }

  /** By the time a sweep starts to close sessions it has come by every client there was when it started. */
  lemma {:induction false} ComesByAll(es: seq<Event>)
    requires IsRun(START, es)
    ensures var sweeper := Run(START, es).sweeper;
            ClientsAtTick(es) <= CameBy(es) + (if sweeper.Collecting? then sweeper.ahead else {})
  {
    hide Step, Enabled;
    if es != [] {
      var before, e := es[..|es| - 1], es[|es| - 1];
      assert Enabled(Run(START, before), e);
      ComesByAll(before);
      if e.OfSweeper? {
        RangeGoesOn(Run(START, before), e);
      } else {
        OthersLeaveIt(Run(START, before), e);
      }
    }
  }

  function Ahead(w: Sweeper): set<Key> {
    if w.Collecting? then w.ahead else {}
  }

  lemma RangeGoesOn(s: State, e: Event)
    requires Enabled(s, e) && e.OfSweeper?
    ensures var before, after := Ahead(s.sweeper), Ahead(Step(s, e).sweeper);
            if e.w.Tick? then s.clients.Keys <= after
            else if e.w.Visit? then after == before - {e.w.key}
            else after == before == {}
  {
    hide SweepStep, SweepEnabled, Ahead;
    RangeTurn(s, e.w);
  }

  lemma RangeTurn(s: State, w: SweepEvent)
    requires SweepEnabled(s, w)
    ensures var before, after := Ahead(s.sweeper), Ahead(SweepStep(s, w).sweeper);
            if w.Tick? then s.clients.Keys <= after
            else if w.Visit? then after == before - {w.key}
            else after == before == {}
  {
    match w
    case Tick(_, _, _) =>
    case Visit(_) =>
    case Collected =>
    case NextExpired => assert !Expire(s.clients, s.sweeper.keys).Collecting?;
    case DropExpired =>
    case CloseExpired =>
    case Stop =>
  }

  lemma Swept(es: seq<Event>, s: State, e: Event) returns (fs: seq<Event>, t: State)
    requires IsRun(START, es) && Run(START, es) == s && Enabled(s, e)
    ensures IsRun(START, fs) && Run(START, fs) == t == Step(s, e)
    ensures LastTick(fs) == if e.OfSweeper? && e.w.Tick? then Some((e.w.now, e.w.timeout)) else LastTick(es)
    ensures !(e.OfSweeper? && (e.w.Tick? || e.w.Visit?)) ==> FoundIdle(fs) == FoundIdle(es)
    ensures t.sweeper.Collecting? ==> t.sweeper.keys == FoundIdle(fs)
  {
    hide Step, Enabled;
    fs, t := es + [e], Step(s, e);
    Then(START, es, s, e);
    OneMore(es, e);
    ClosesWhatItFoundIdle(fs);
  }

  /** A packet is passed on, and a sweep that starts later comes by its client. */
  lemma FoundBySweep(es: seq<Event>, s: State) returns (fs: seq<Event>, t: State)
    requires IsRun(START, es) && Run(START, es) == s
    requires s.packet == Writing(7, 0) && s.sweeper.Waiting? && s.clients == map[7 := 0] && s.active == map[0 := 0]
    requires s.open == {0}
    ensures IsRun(START, fs) && Run(START, fs) == t && LastTick(fs) == Some((100, 10)) && FoundIdle(fs) == [7]
    ensures t == s.(packet := Polling, sweeper := Sweeping([7]))
  {
    hide Run, IsRun, LastTick, FoundIdle;
    fs, t := Swept(es, s, OfPacketLoop(Write(0, true)));
    assert s.active[0 := 0] == s.active;
    fs, t := Swept(fs, t, OfSweeper(Tick(100, 10, {7})));
    fs, t := Swept(fs, t, OfSweeper(Visit(7)));
    assert {7} - {7} == {} && [] + [7] == [7];
    fs, t := Swept(fs, t, OfSweeper(Collected));
  }

  /** The client's next packet goes out meanwhile. */
  lemma UsedMeanwhile(es: seq<Event>, s: State) returns (fs: seq<Event>, t: State)
    requires IsRun(START, es) && Run(START, es) == s && s.sweeper.Sweeping? && !s.shutdown && s.closer.NotCalled?
    requires s.packet.Polling? && s.clients == map[7 := 0] && 0 in s.open
    ensures IsRun(START, fs) && Run(START, fs) == t && LastTick(fs) == LastTick(es) && FoundIdle(fs) == FoundIdle(es)
    ensures t == s.(active := s.active[0 := 100])
  {
    hide Run, IsRun, LastTick, FoundIdle;
    fs, t := Swept(es, s, OfPacketLoop(PollPackets));
    fs, t := Swept(fs, t, OfPacketLoop(PacketFrom(7)));
    fs, t := Swept(fs, t, OfPacketLoop(Lookup));
    fs, t := Swept(fs, t, OfPacketLoop(Write(100, true)));
  }

  /**
   But it closes the client's session even if that has been used since: here a packet goes out over session 0 at the
   very moment the sweep started, and the sweep, which came by the client just before, closes it.
   */
  lemma ClosesUsedAgain() returns (es: seq<Event>)
    ensures IsRun(START, es)
    ensures LastTick(es) == Some((100, 10)) && FoundIdle(es) == [7] && LastUse(es, 0) == Some(100)
    ensures Run(START, es).keyOf == map[0 := 7] && Run(START, es).open == {} && Run(START, es).clients == map[]
  {
    hide Run, IsRun, LastTick, FoundIdle;
    var s: State;
    AtFirst(START);
    es, s := FirstPacket([], START, 7, 0);
    es, s := FoundBySweep(es, s);
    es, s := UsedMeanwhile(es, s);
    es, s := Swept(es, s, OfSweeper(NextExpired));
    es, s := Swept(es, s, OfSweeper(DropExpired));
    es, s := Swept(es, s, OfSweeper(CloseExpired));
    ActiveIsLastUse(es, 0);
  }

  lemma OneMore(es: seq<Event>, e: Event)
    requires IsRun(START, es) && Enabled(Run(START, es), e) && IsRun(START, es + [e])
    ensures LastTick(es + [e]) == if e.OfSweeper? && e.w.Tick? then Some((e.w.now, e.w.timeout)) else LastTick(es)
    ensures !(e.OfSweeper? && (e.w.Tick? || e.w.Visit?)) ==> FoundIdle(es + [e]) == FoundIdle(es)
  {
    assert (es + [e])[..|es|] == es;
  }
}
