/**
 The agent's traffic counter: connections add to it while one loop reports it to the controller and, when
 the request succeeds, stores zero. Reading, sending and storing are separate steps, so bytes can be added
 between any two of them.
 */
module TrafficCounter {

  /** Where the reporting loop is. */
  datatype Phase =
    | Idle
    | NonZeroSeen
    | Sent(snapshot: nat)
    | Succeeded(reported: nat)

  datatype Counter = Counter(current: nat, phase: Phase)

  const START := Counter(0, Idle)

  datatype Event =
    | Add(bytes: nat)
    | See
    | Snapshot
    | Accept          // the controller books the snapshot and the reply arrives
    | Store           // the counter is set to zero
    | Refuse          // the request fails and nothing was booked
    | LoseReply       // the controller books the snapshot but the request still fails

  predicate Enabled(c: Counter, e: Event) {
    match e
    case Add(_) => true
    case See => c.phase.Idle? && c.current != 0
    case Snapshot => c.phase.NonZeroSeen?
    case Accept => c.phase.Sent?
    case Store => c.phase.Succeeded?
    case Refuse => c.phase.Sent?
    case LoseReply => c.phase.Sent?
  }

  function Step(c: Counter, e: Event): Counter
    requires Enabled(c, e)
  {
    match e
    case Add(bytes) => c.(current := c.current + bytes)
    case See => c.(phase := NonZeroSeen)
    case Snapshot => c.(phase := Sent(c.current))
    case Accept => c.(phase := Succeeded(c.phase.snapshot))
    case Store => Counter(0, Idle)
    case Refuse => c.(phase := Idle)
    case LoseReply => c.(phase := Idle)
  }

  predicate IsRun(es: seq<Event>)
    decreases |es|, 0
  {
    es != [] ==> IsRun(es[..|es| - 1]) && Enabled(Run(es[..|es| - 1]), es[|es| - 1])
  }

  function Run(es: seq<Event>): Counter
    requires IsRun(es)
    decreases |es|, 1
  {
    if es == [] then START else Step(Run(es[..|es| - 1]), es[|es| - 1])
  }

  // ----- the history of a run

  /** All bytes the connections added. */
  function Counted(es: seq<Event>): nat {
    if es == [] then 0
    else Counted(es[..|es| - 1]) + (if es[|es| - 1].Add? then es[|es| - 1].bytes else 0)
  }

  /** All bytes the controller booked. */
  function Booked(es: seq<Event>): nat
    requires IsRun(es)
  {
    if es == [] then 0
    else
      var before, e := es[..|es| - 1], es[|es| - 1];
      Booked(before) + (if e.Accept? || e.LoseReply? then Run(before).phase.snapshot else 0)
  }

  /** Bytes added since the last snapshot was taken. */
  function AddedSince(es: seq<Event>): nat {
    if es == [] || es[|es| - 1].Snapshot? then 0
    else AddedSince(es[..|es| - 1]) + (if es[|es| - 1].Add? then es[|es| - 1].bytes else 0)
  }

  /** For every successful round, the bytes added between its snapshot and its store. */
  function Lost(es: seq<Event>): nat {
    if es == [] then 0
    else Lost(es[..|es| - 1]) + (if es[|es| - 1].Store? then AddedSince(es[..|es| - 1]) else 0)
  }

  /** For every round whose reply was lost, the bytes it booked: they are still in the counter. */
  function BookedTwice(es: seq<Event>): nat
    requires IsRun(es)
  {
    if es == [] then 0
    else
      var before, e := es[..|es| - 1], es[|es| - 1];
      BookedTwice(before) + (if e.LoseReply? then Run(before).phase.snapshot else 0)
  }

  /** While a request is out, the counter is its snapshot and what was added since. */
  lemma {:induction false} SnapshotPlusAdded(es: seq<Event>)
    requires IsRun(es)
    ensures match Run(es).phase
            case Sent(s) => Run(es).current == s + AddedSince(es)
            case Succeeded(s) => Run(es).current == s + AddedSince(es)
            case _ => true
  {
    if es != [] {
      SnapshotPlusAdded(es[..|es| - 1]);
    }
  }

  /** Nothing is reported when nothing has been counted: every request carries at least one byte. */
  lemma {:induction false} NeverReportsZero(es: seq<Event>)
    requires IsRun(es)
    ensures match Run(es).phase
            case Idle => true
            case NonZeroSeen => Run(es).current > 0
            case Sent(s) => s > 0
            case Succeeded(s) => s > 0
  {
    if es != [] {
      NeverReportsZero(es[..|es| - 1]);
    }
  }

  /** Booked but not yet taken out of the counter. */
  function AwaitingStore(c: Counter): nat {
    if c.phase.Succeeded? then c.phase.reported else 0
  }

  /** Every byte is accounted for in every state of every run. */
  lemma {:induction false} Conservation(es: seq<Event>)
    requires IsRun(es)
    ensures Booked(es) + Run(es).current + Lost(es) == Counted(es) + BookedTwice(es) + AwaitingStore(Run(es))
  {
    if es != [] {
      Conservation(es[..|es| - 1]);
      SnapshotPlusAdded(es[..|es| - 1]);
    }
  }

  predicate NoReplyLost(es: seq<Event>) {
    LoseReply !in es
  }

  /** When a failed request has never been booked, the controller never books more than was counted. */
  lemma NeverOverbooked(es: seq<Event>)
    requires IsRun(es) && NoReplyLost(es)
    ensures Booked(es) <= Counted(es)
    ensures Run(es).phase.Idle? ==> Counted(es) == Booked(es) + Run(es).current + Lost(es)
  {
    Conservation(es);
    NothingTwice(es);
    SnapshotPlusAdded(es);
  }

  lemma {:induction false} NothingTwice(es: seq<Event>)
    requires IsRun(es) && NoReplyLost(es)
    ensures BookedTwice(es) == 0
  {
    if es != [] {
      assert es[|es| - 1] in es;
      NothingTwice(es[..|es| - 1]);
    }
  }

  /** A run with one more event. */
  lemma OneMore(es: seq<Event>, e: Event)
    requires IsRun(es) && Enabled(Run(es), e)
    ensures var more := es + [e];
            && IsRun(more) && Run(more) == Step(Run(es), e)
            && Booked(more) == Booked(es) + (if e.Accept? || e.LoseReply? then Run(es).phase.snapshot else 0)
            && Lost(more) == Lost(es) + (if e.Store? then AddedSince(es) else 0)
            && AddedSince(more) == if e.Snapshot? then 0 else AddedSince(es) + (if e.Add? then e.bytes else 0)
  {
    assert (es + [e])[..|es|] == es;
  }

  /** A run up to the moment the request is out. */
  lemma RequestOut(es: seq<Event>, beforeSnapshot: nat, beforeReply: nat)
    requires IsRun(es) && Run(es).phase.Idle? && Run(es).current != 0
    ensures var more := es + [See, Add(beforeSnapshot), Snapshot, Add(beforeReply)];
            var snapshot := Run(es).current + beforeSnapshot;
            && IsRun(more) && Run(more) == Counter(snapshot + beforeReply, Sent(snapshot))
            && Booked(more) == Booked(es) && Lost(more) == Lost(es) && AddedSince(more) == beforeReply
  {
    OneMore(es, See);
    OneMore(es + [See], Add(beforeSnapshot));
    OneMore(es + [See] + [Add(beforeSnapshot)], Snapshot);
    OneMore(es + [See] + [Add(beforeSnapshot)] + [Snapshot], Add(beforeReply));
    assert es + [See] + [Add(beforeSnapshot)] + [Snapshot] + [Add(beforeReply)] ==
           es + [See, Add(beforeSnapshot), Snapshot, Add(beforeReply)];
  }

  /** And from there to the end of a successful round. */
  lemma RoundSucceeds(es: seq<Event>, beforeStore: nat)
    requires IsRun(es) && Run(es).phase.Sent?
    ensures var more := es + [Accept, Add(beforeStore), Store];
            && IsRun(more) && Run(more) == START
            && Booked(more) == Booked(es) + Run(es).phase.snapshot
            && Lost(more) == Lost(es) + AddedSince(es) + beforeStore
  {
    OneMore(es, Accept);
    OneMore(es + [Accept], Add(beforeStore));
    OneMore(es + [Accept] + [Add(beforeStore)], Store);
    assert es + [Accept] + [Add(beforeStore)] + [Store] == es + [Accept, Add(beforeStore), Store];
  }

  // ----- the code

  class Connector {
    var curTraffic: nat
    ghost var history: seq<Event>

    ghost predicate Valid()
      reads this
    {
      IsRun(history) && Run(history) == Counter(curTraffic, Idle)
    }

    constructor ()
      ensures Valid() && history == []
    {
      curTraffic, history := 0, [];
    }

    /** The callback of the relay loops. */
    method Count(bytes: nat)
      requires Valid()
      modifies this
      ensures Valid() && history == old(history) + [Add(bytes)]
    {
      OneMore(history, Add(bytes));
      curTraffic := curTraffic + bytes;
      history := history + [Add(bytes)];
    }

    /**
     One turn of the reporting loop, with the bytes other goroutines add between its steps: before the
     snapshot, while the request is out, and before zero is stored. `booked` and `replied` say what becomes
     of the request. A round that succeeds loses exactly the bytes added after its snapshot.
     */
    method ReportCurTraffic(beforeSnapshot: nat, beforeReply: nat, beforeStore: nat, booked: bool, replied: bool)
      requires Valid()
      requires replied ==> booked
      modifies this
      ensures Valid()
      ensures history ==
              old(history) + Round(old(curTraffic), beforeSnapshot, beforeReply, beforeStore, booked, replied)
      ensures old(curTraffic) != 0 && replied ==>
                && Booked(history) == Booked(old(history)) + old(curTraffic) + beforeSnapshot
                && Lost(history) == Lost(old(history)) + beforeReply + beforeStore
      ensures !replied ==> Lost(history) == Lost(old(history))
    {
      if curTraffic == 0 {
        return;
      }
      RequestOut(history, beforeSnapshot, beforeReply);
      ghost var out := history + [See, Add(beforeSnapshot), Snapshot, Add(beforeReply)];
      curTraffic := curTraffic + beforeSnapshot;
      var snapshot := curTraffic;
      curTraffic := curTraffic + beforeReply;
      if replied {
        RoundSucceeds(out, beforeStore);
        curTraffic := curTraffic + beforeStore;
        curTraffic := 0;
        history := out + [Accept, Add(beforeStore), Store];
      } else if booked {
        OneMore(out, LoseReply);
        history := out + [LoseReply];
      } else {
        OneMore(out, Refuse);
        history := out + [Refuse];
      }
    }
  }

  /** The events of one turn of the reporting loop. */
  function Round(current: nat, beforeSnapshot: nat, beforeReply: nat, beforeStore: nat, booked: bool, replied: bool)
    : seq<Event>
  {
    var end := if replied then [Accept, Add(beforeStore), Store] else if booked then [LoseReply] else [Refuse];
    if current == 0 then [] else [See, Add(beforeSnapshot), Snapshot, Add(beforeReply)] + end
  }
}
