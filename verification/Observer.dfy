/**
 Traffic events from the relay: the agent names its services after their ports, and the observer recovers
 the port of each TCP service from the name.
 */
module Observer {
  import opened Text
  import opened Wrappers

  /** The services an agent registers: two for each rule, one for a chain. */
  datatype Service =
    | TcpService(listenIp: string, port: int)
    | UdpService(listenIp: string, port: int)
    | ChainService(port: int)

  /** The listen address a rule is added under. */
  function Source(listenIp: string, port: int): string {
    listenIp + ":" + Itoa(port)
  }

  /** A rule's service name carries the port cut from its source address. */
  function NameOf(s: Service): string {
    match s
    case TcpService(ip, port) => "tcp-" + LastPiece(Source(ip, port), ':')
    case UdpService(ip, port) => "udp-" + LastPiece(Source(ip, port), ':')
    case ChainService(port) => "chain-" + Itoa(port)
  }

  datatype Event = Event(service: string, input: int, output: int)

  datatype Report = Report(port: int, traffic: int)

  predicate Skipped(service: string) {
    Contains(service, "udp") || Contains(service, "chain")
  }

  const MAX_INT64 := 0x7FFF_FFFF_FFFF_FFFF

  /** Go's conversion to `int32`: keep the low 32 bits. */
  function ToInt32(n: int): int {
    (n + 0x8000_0000) % 0x1_0000_0000 - 0x8000_0000
  }

  /** What is left of `strconv.Atoi` when its error is dropped: 0, or the nearest 64-bit value. */
  function AtoiOrZero(s: string): int {
    match Atoi(s)
    case None => 0
    case Some(n) => if n > MAX_INT64 then MAX_INT64 else if n < -MAX_INT64 - 1 then -MAX_INT64 - 1 else n
  }

  function ReportOf(e: Event): Report {
    Report(ToInt32(AtoiOrZero(LastPiece(e.service, '-'))), e.input + e.output)
  }

  /** The request an event turns into, if any. */
  function Forward(e: Event): seq<Report> {
    if Skipped(e.service) then [] else [ReportOf(e)]
  }

  /** The results of `f` on the items, one after the other. */
  function Collect<T>(items: seq<T>, f: T -> seq<Report>): seq<Report> {
    if items == [] then []
    else Collect(items[..|items| - 1], f) + f(items[|items| - 1])
  }

  function Reports(events: seq<Event>): seq<Report> {
    Collect(events, Forward)
  }

  predicate RefusedAt(events: seq<Event>, refused: set<nat>, k: nat)
    requires k < |events|
  {
    k in refused && Forward(events[k]) != []
  }

  lemma NextReport(events: seq<Event>, i: nat)
    requires i < |events|
    ensures Reports(events[..i + 1]) == Reports(events[..i]) + Forward(events[i])
    ensures Forward(events[i]) == if Skipped(events[i].service) then [] else [ReportOf(events[i])]
  {
    hide ReportOf, Skipped;
    assert events[..i + 1][..i] == events[..i];
  }

  /** `refused` holds the positions of the events whose request fails; the first such one ends the batch. */
  method ObserveNetworkTraffic(events: seq<Event>, refused: set<nat>) returns (sent: seq<Report>, failed: bool)
    ensures !failed ==> sent == Reports(events)
    ensures !failed ==> forall k | 0 <= k < |events| :: !RefusedAt(events, refused, k)
    ensures failed ==> exists k | 0 <= k < |events| :: RefusedAt(events, refused, k) && sent == Reports(events[..k])
  {
    hide Contains, LastPiece, AtoiOrZero, ToInt32;
    sent, failed := [], false;
    for i := 0 to |events|
      invariant sent == Reports(events[..i])
      invariant forall k | 0 <= k < i :: !RefusedAt(events, refused, k)
    {
      NextReport(events, i);
      var e := events[i];
      if Contains(e.service, "udp") || Contains(e.service, "chain") {
        continue;
      }
      if i in refused {
        assert RefusedAt(events, refused, i);
        return sent, true;
      }
      sent := sent + [Report(ToInt32(AtoiOrZero(LastPiece(e.service, '-'))), e.input + e.output)];
    }
    assert events[..|events|] == events;
  }

  // ----- the name round trip

  lemma NoSeparatorsInPort(port: int)
    requires 0 <= port
    ensures AllDigits(Itoa(port))
    ensures ':' !in Itoa(port) && '-' !in Itoa(port)
  {
  }

  lemma SourceKeepsPort(listenIp: string, port: int)
    requires 0 <= port
    ensures LastPiece(Source(listenIp, port), ':') == Itoa(port)
  {
    NoSeparatorsInPort(port);
    LastPieceAfter(listenIp, ':', Itoa(port));
    assert listenIp + ":" + Itoa(port) == listenIp + [':'] + Itoa(port);
  }

  lemma NameByPort(s: Service)
    requires 0 <= s.port
    ensures NameOf(s) ==
            (if s.TcpService? then "tcp" else if s.UdpService? then "udp" else "chain") + ("-" + Itoa(s.port))
  {
    if !s.ChainService? {
      SourceKeepsPort(s.listenIp, s.port);
    }
  }

  lemma TcpNameKept(digits: string)
    requires AllDigits(digits)
    ensures !Skipped("tcp" + ("-" + digits))
  {
    var name := "tcp" + ("-" + digits);
    assert 'u' !in digits && 'h' !in digits;
    assert 'u' !in name && 'h' !in name;
    ContainsNeeds(name, "udp", 'u');
    ContainsNeeds(name, "chain", 'h');
  }

  lemma OtherNamesSkipped(rest: string)
    ensures Skipped("udp" + rest) && Skipped("chain" + rest)
  {
    ContainsPart("", "udp", rest);
    ContainsPart("", "chain", rest);
    assert "" + "udp" + rest == "udp" + rest && "" + "chain" + rest == "chain" + rest;
  }

  lemma ForwardKept(e: Event, port: int)
    requires !Skipped(e.service) && Atoi(LastPiece(e.service, '-')) == Some(port) && 0 <= port < 0x1_0000
    ensures Forward(e) == [Report(port, e.input + e.output)]
  {
  }

  /**
   Whatever a service is called: a name whose last part is no number reports port 0; a number that fits 64 bits, the
   port with the same low 32 bits; and a larger one, port -1 or 0, after the low 32 bits of the nearest that fits.
   */
  lemma PortOfAnyName(e: Event)
    requires !Contains(e.service, "udp") && !Contains(e.service, "chain")
    ensures |Forward(e)| == 1 && Forward(e)[0].traffic == e.input + e.output
    ensures var read, port := Atoi(LastPiece(e.service, '-')), Forward(e)[0].port;
            && -0x8000_0000 <= port < 0x8000_0000
            && (read.None? ==> port == 0)
            && (read.Some? && -0x8000_0000_0000_0000 <= read.value < 0x8000_0000_0000_0000 ==>
                  (port - read.value) % 0x1_0000_0000 == 0)
            && (read.Some? && read.value >= 0x8000_0000_0000_0000 ==> port == -1)
            && (read.Some? && read.value < -0x8000_0000_0000_0000 ==> port == 0)
  {
    hide Contains, LastPiece, Atoi;
    var n := AtoiOrZero(LastPiece(e.service, '-'));
    assert (n + 0x8000_0000) % 0x1_0000_0000 == n + 0x8000_0000 - 0x1_0000_0000 * ((n + 0x8000_0000) / 0x1_0000_0000);
  }

  /** Nor does it matter where in its name a service says that it is UDP's or a chain's. */
  lemma SkippedAnywhere(before: string, after: string, input: int, output: int)
    ensures Forward(Event(before + "udp" + after, input, output)) == []
    ensures Forward(Event(before + "chain" + after, input, output)) == []
  {
    hide Contains;
    ContainsPart(before, "udp", after);
    ContainsPart(before, "chain", after);
  }

  lemma TcpPortRecovered(s: Service)
    requires s.TcpService? && 0 <= s.port
    ensures Atoi(LastPiece(NameOf(s), '-')) == Some(s.port)
  {
    NameByPort(s);
    NoSeparatorsInPort(s.port);
    assert NameOf(s) == "tcp" + ['-'] + Itoa(s.port);
    LastPieceAfter("tcp", '-', Itoa(s.port));
    AtoiItoa(s.port);
  }

  /** Traffic seen on a service. */
  datatype Sample = Sample(service: Service, input: int, output: int)

  function EventOf(s: Sample): Event {
    Event(NameOf(s.service), s.input, s.output)
  }

  function EventsOf(samples: seq<Sample>): (events: seq<Event>)
    ensures |events| == |samples|
    ensures forall i | 0 <= i < |samples| :: events[i] == EventOf(samples[i])
  {
    seq(|samples|, i requires 0 <= i < |samples| => EventOf(samples[i]))
  }

  function TcpReport(s: Sample): seq<Report> {
    if s.service.TcpService? then [Report(s.service.port, s.input + s.output)] else []
  }

  /** Whatever the listen address, a TCP service reports its own port, and no other service reports. */
  lemma NameRoundTrip(s: Sample)
    requires 0 <= s.service.port < 0x1_0000
    ensures Forward(EventOf(s)) == TcpReport(s)
  {
    hide Itoa, Atoi, LastPiece, Contains, NameOf;
    NameByPort(s.service);
    if s.service.TcpService? {
      NoSeparatorsInPort(s.service.port);
      TcpNameKept(Itoa(s.service.port));
      TcpPortRecovered(s.service);
      ForwardKept(EventOf(s), s.service.port);
    } else {
      OtherNamesSkipped("-" + Itoa(s.service.port));
    }
  }

  /** A batch reports, in order, each TCP sample's own port with its input and output bytes, and nothing else. */
  lemma {:induction false} BatchReportsTcp(samples: seq<Sample>)
    requires forall i | 0 <= i < |samples| :: 0 <= samples[i].service.port < 0x1_0000
    ensures Reports(EventsOf(samples)) == Collect(samples, TcpReport)
  {
    if samples != [] {
      var n := |samples| - 1;
      BatchReportsTcp(samples[..n]);
      assert EventsOf(samples)[..n] == EventsOf(samples[..n]);
      NameRoundTrip(samples[n]);
    }
  }
}
