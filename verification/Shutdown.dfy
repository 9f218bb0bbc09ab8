/**
 What `Close` leaves behind: which sockets stay open once every goroutine has stopped, and two runs in which it
 returns too early.
 */
module Shutdown {
  import opened Sessions

  /** The session whose socket a step closes. */
  function Closes(s: State, e: Event): set<Id>
    requires Enabled(s, e)
  {
    match e
    case OfPacketLoop(CloseUnwritable) => {s.packet.id}
    case OfReturnLoop(id, CloseFailed) => {id}
    case OfSweeper(CloseExpired) => {s.sweeper.id}
    case OfClose(CloseSocket(key)) => if key in s.clients then {s.clients[key]} else {}
    case _ => {}
  }

  /** The session whose entry a step deletes in mistake for another's. */
  function Drops(s: State, e: Event): set<Id>
    requires Enabled(s, e)
  {
    if !DropsAnother(s, e) then {}
    else
      match e
      case OfPacketLoop(_) => {s.clients[s.packet.key]}
      case OfReturnLoop(id, _) => {s.clients[s.keyOf[id]]}
      case OfSweeper(_) => {s.clients[s.sweeper.key]}
      case OfClose(_) => {}
  }

  function ClosedIn(s: State, es: seq<Event>): set<Id>
    requires IsRun(s, es)
  {
    if es == [] then {} else ClosedIn(s, es[..|es| - 1]) + Closes(Run(s, es[..|es| - 1]), es[|es| - 1])
  }

  function DroppedIn(s: State, es: seq<Event>): set<Id>
    requires IsRun(s, es)
  {
    if es == [] then {} else DroppedIn(s, es[..|es| - 1]) + Drops(Run(s, es[..|es| - 1]), es[|es| - 1])
  }

  /** The one session that can still be set up: the one being dialled, or the next. */
  function LateId(s: State): Id {
    if s.packet.Dialled? || s.packet.Counted? then s.packet.id else s.next
  }

  predicate CanDial(s: State) {
    s.packet.Reading? || s.packet.Received? || s.packet.Dialling?
  }

  /** Who is accountable for a socket on the way to the halt, `closed` and `dropped` being the run's so far. */
  predicate Progress(s: State, late: Id, closed: set<Id>, dropped: set<Id>) {
    && closed <= s.keyOf.Keys && s.open !! closed
    && (forall id | id in s.open :: Accounted(s, id) || id in dropped)
    && (forall id | id in s.open && s.Mapped(id) && id != late :: s.closer.Ranging? && s.keyOf[id] in s.closer.keys)
    && (s.packet.Dialled? || s.packet.Counted? ==> s.packet.id == late)
    && (CanDial(s) ==> s.next == late)
    && (forall id | id in s.keyOf && (s.Mapped(id) || id == late || id in dropped) :: id in s.open || id in closed)
  }

  /** A new session, or one that is given up: the steps that concern the map or a socket. */
  predicate Touches(p: PacketEvent) {
    p.Dial? || p.Store? || p.DropUnwritable? || p.CloseUnwritable?
  }

  lemma PacketMoves(s: State, p: PacketEvent, late: Id, closed: set<Id>, dropped: set<Id>)
    requires Inv(s) && s.shutdown && Progress(s, late, closed, dropped) && PacketEnabled(s, p)
    requires !Touches(p)
    ensures var e := OfPacketLoop(p);
            Progress(PacketStep(s, p), late, closed + Closes(s, e), dropped + Drops(s, e))
  {
    hide GroupOk, CloserOk, MappedOk, LoopsOk, SweeperOk, Promised;
  }

  lemma SessionAdded(s: State, p: PacketEvent, late: Id, closed: set<Id>, dropped: set<Id>)
    requires Inv(s) && s.shutdown && Progress(s, late, closed, dropped) && PacketEnabled(s, p)
    requires p.Dial? || p.Store?
    ensures var e := OfPacketLoop(p);
            Progress(PacketStep(s, p), late, closed + Closes(s, e), dropped + Drops(s, e))
  {
    hide GroupOk, CloserOk, MappedOk, LoopsOk, SweeperOk, Promised;
  }

  lemma SessionGivenUp(s: State, p: PacketEvent, late: Id, closed: set<Id>, dropped: set<Id>)
    requires Inv(s) && s.shutdown && Progress(s, late, closed, dropped) && PacketEnabled(s, p)
    requires p.DropUnwritable? || p.CloseUnwritable?
    ensures var e := OfPacketLoop(p);
            Progress(PacketStep(s, p), late, closed + Closes(s, e), dropped + Drops(s, e))
  {
    hide GroupOk, CloserOk, MappedOk, LoopsOk, SweeperOk, Promised;
  }

  lemma PacketProgress(s: State, p: PacketEvent, late: Id, closed: set<Id>, dropped: set<Id>)
    requires Inv(s) && s.shutdown && Progress(s, late, closed, dropped) && PacketEnabled(s, p)
    ensures var e := OfPacketLoop(p);
            Progress(PacketStep(s, p), late, closed + Closes(s, e), dropped + Drops(s, e))
  {
    hide Inv, Progress, Closes, Drops, PacketStep;
    if !Touches(p) {
      PacketMoves(s, p, late, closed, dropped);
    } else if p.Dial? || p.Store? {
      SessionAdded(s, p, late, closed, dropped);
    } else {
      SessionGivenUp(s, p, late, closed, dropped);
    }
  }

  lemma LoopProgress(s: State, id: Id, l: LoopEvent, late: Id, closed: set<Id>, dropped: set<Id>)
    requires Inv(s) && s.shutdown && Progress(s, late, closed, dropped) && LoopEnabled(s, id, l)
    ensures var e := OfReturnLoop(id, l);
            Progress(LoopStep(s, id, l), late, closed + Closes(s, e), dropped + Drops(s, e))
  {
    hide GroupOk, CloserOk, MappedOk, SweeperOk;
    if l.DropFailed? && s.keyOf[id] in s.clients {
      var key := s.keyOf[id];
      assert s.Mapped(s.clients[key]);
    }
  }

  lemma SweepProgress(s: State, w: SweepEvent, late: Id, closed: set<Id>, dropped: set<Id>)
    requires Inv(s) && s.shutdown && Progress(s, late, closed, dropped) && SweepEnabled(s, w)
    ensures var e := OfSweeper(w);
            Progress(SweepStep(s, w), late, closed + Closes(s, e), dropped + Drops(s, e))
  {
    hide GroupOk, CloserOk, MappedOk;
  }

  lemma CloseProgress(s: State, c: CloseEvent, late: Id, closed: set<Id>, dropped: set<Id>)
    requires Inv(s) && s.shutdown && Progress(s, late, closed, dropped) && CloseEnabled(s, c)
    ensures var e := OfClose(c);
            Progress(CloseStep(s, c), late, closed + Closes(s, e), dropped + Drops(s, e))
  {
    hide GroupOk, MappedOk;
  }

  lemma StepProgress(s: State, e: Event, late: Id, closed: set<Id>, dropped: set<Id>)
    requires Inv(s) && s.shutdown && Progress(s, late, closed, dropped) && Enabled(s, e)
    ensures Progress(Step(s, e), late, closed + Closes(s, e), dropped + Drops(s, e))
  {
    hide Inv, Progress, Closes, Drops;
    match e
    case OfPacketLoop(p) => PacketProgress(s, p, late, closed, dropped);
    case OfReturnLoop(id, l) => LoopProgress(s, id, l, late, closed, dropped);
    case OfSweeper(w) => SweepProgress(s, w, late, closed, dropped);
    case OfClose(c) => CloseProgress(s, c, late, closed, dropped);
  }

  lemma {:induction false} RunProgress(s: State, es: seq<Event>, orphans: set<Id>)
    requires Inv(s) && s.shutdown && Progress(s, LateId(s), {}, orphans) && IsRun(s, es)
    ensures Run(s, es).shutdown && Inv(Run(s, es))
    ensures Progress(Run(s, es), LateId(s), ClosedIn(s, es), orphans + DroppedIn(s, es))
    decreases |es|
  {
    hide Inv, Progress, Closes, Drops, Step;
    if es != [] {
      var before, e := es[..|es| - 1], es[|es| - 1];
      RunProgress(s, before, orphans);
      StepProgress(Run(s, before), e, LateId(s), ClosedIn(s, before), orphans + DroppedIn(s, before));
      assert orphans + DroppedIn(s, before) + Drops(Run(s, before), e) == orphans + DroppedIn(s, es);
      StepKeepsInv(Run(s, before), e);
      StaysShut(Run(s, before), e);
    } else {
      assert orphans + {} == orphans;
    }
  }

  /** The sessions dropped by another's delete and still open. */
  function Orphans(s: State): set<Id> {
    set id | id in s.open && !Accounted(s, id)
  }

  /** When `Close` is called, every open socket is accounted for or an orphan, and every mapped one is in its range. */
  lemma ProgressStarts(s: State, later: set<Key>)
    requires Inv(s) && !s.shutdown && s.closer.NotCalled?
    ensures var called := Step(s, OfClose(Close(later)));
            Inv(called) && called.shutdown && Progress(called, LateId(called), {}, Orphans(s))
  {
    hide GroupOk, LoopsOk, SweeperOk;
    StepKeepsInv(s, OfClose(Close(later)));
    forall id | id in s.keyOf && s.Mapped(id) ensures id in s.open {
      var key := s.keyOf[id];
      assert s.clients[key] in s.open;
    }
  }

  /**
   The sockets that are still open when everyone has stopped are those that no step closed of three kinds: the
   session the packet loop was setting up when `Close` was called, and the sessions dropped by another's delete
   before it and after. Every other socket has been closed.
   */
  lemma LeftOpen(s: State, later: set<Key>, es: seq<Event>)
    requires Inv(s) && !s.shutdown && s.closer.NotCalled?
    requires var called := Step(s, OfClose(Close(later))); IsRun(called, es) && Halted(Run(called, es))
    ensures var called := Step(s, OfClose(Close(later)));
            var end := Run(called, es);
            forall id :: id in end.open <==>
              && id in end.keyOf && id !in ClosedIn(called, es)
              && (id == LateId(called) || id in Orphans(s) || id in DroppedIn(called, es))
  {
    var called := Step(s, OfClose(Close(later)));
    ProgressStarts(s, later);
    RunProgress(called, es, Orphans(s));
    HaltedMeansDone(Run(called, es));
    AtTheHalt(Run(called, es), LateId(called), ClosedIn(called, es), Orphans(s) + DroppedIn(called, es));
  }

  lemma AtTheHalt(s: State, late: Id, closed: set<Id>, dropped: set<Id>)
    requires Inv(s) && Progress(s, late, closed, dropped)
    requires s.packet.Returned? && s.loops == map[] && s.sweeper.Stopped? && s.closer.Finished?
    ensures forall id :: id in s.open <==> id in s.keyOf && id !in closed && (id == late || id in dropped)
  {
    hide GroupOk, LoopsOk, MappedOk;
  }

  // ----- runs from the start

  lemma Next(es: seq<Event>, s: State, e: Event) returns (more: seq<Event>, t: State)
    requires IsRun(START, es) && Run(START, es) == s && Enabled(s, e)
    ensures IsRun(START, more) && Run(START, more) == t == Step(s, e)
  {
    Then(START, es, s, e);
    more, t := es + [e], Step(s, e);
  }

  /** `Close` returns while the packet loop holds a new client's first packet. */
  lemma ReturnsEarly() returns (es: seq<Event>, s: State)
    ensures IsRun(START, es) && Run(START, es) == s
    ensures s == START.(packet := Received(7), group := 0, shutdown := true, sweeper := Stopped, closer := Finished)
  {
    hide IsRun, Run;
    AtFirst(START);
    es, s := Next([], START, OfPacketLoop(PollPackets));
    es, s := Next(es, s, OfPacketLoop(PacketFrom(7)));
    es, s := Next(es, s, OfClose(Close({})));
    assert s.closer == Ranging({});
    es, s := Next(es, s, OfClose(Ranged));
    es, s := Next(es, s, OfSweeper(Stop));
    es, s := Next(es, s, OfClose(Waited));
  }

  /** So `Close` can return with nothing left to wait for and its group still to rise. */
  lemma ReopensFromStart() returns (es: seq<Event>)
    ensures IsRun(START, es)
    ensures var s := Run(START, es); Closed(s) && SettingUp(s) && Reopens(s)
  {
    hide IsRun, Run;
    var s: State;
    es, s := ReturnsEarly();
    RunKeepsInv(START, es);
    ReopensAfterClose(s);
  }

  /** And the session set up then is served by nobody and never closed. */
  lemma SocketLeftOpen() returns (es: seq<Event>)
    ensures IsRun(START, es)
    ensures var s := Run(START, es); Halted(s) && s.open == {0}
  {
    hide IsRun, Run;
    var s: State;
    es, s := ReturnsEarly();
    es, s := Next(es, s, OfPacketLoop(Lookup));
    es, s := Next(es, s, OfPacketLoop(Dial(0, true)));
    es, s := Next(es, s, OfPacketLoop(Count));
    es, s := Next(es, s, OfPacketLoop(Store));
    es, s := Next(es, s, OfPacketLoop(Spawn));
    es, s := Next(es, s, OfPacketLoop(Write(0, true)));
    es, s := Next(es, s, OfPacketLoop(PollPackets));
    es, s := Next(es, s, OfReturnLoop(0, PollReplies));
    es, s := Next(es, s, OfReturnLoop(0, Return));
    RunKeepsInv(START, es);
    HaltedMeansDone(s);
  }
}
