/**
 The header the UDP proxy puts in front of a datagram: version, IP length, IP, port, then the payload.
 */
module AddressCodec {
  import opened Wrappers

  newtype byte = b: int | 0 <= b < 256

  datatype UdpAddr = UdpAddr(ip: seq<byte>, port: int)

  const VERSION_IPV4: byte := 0x00
  const VERSION_IPV6: byte := 0x80
  const MIN_HEADER_SIZE := 4

  // ----- Go's net.IP

  const MAPPED_PREFIX: seq<byte> := [0, 0, 0, 0, 0, 0, 0, 0, 0, 0, 0xFF, 0xFF]

  predicate IsMapped(ip: seq<byte>) {
    |ip| == 16 && ip[..12] == MAPPED_PREFIX
  }

  /** `IP.To4`: the 4-byte form of an IPv4 address, whether plain or IPv4-mapped. */
  function To4(ip: seq<byte>): Option<seq<byte>> {
    if |ip| == 4 then Some(ip)
    else if IsMapped(ip) then Some(ip[12..])
    else None
  }

  /** `IP.To16`, empty when the length is neither 4 nor 16. */
  function To16(ip: seq<byte>): seq<byte> {
    if |ip| == 4 then MAPPED_PREFIX + ip
    else if |ip| == 16 then ip
    else []
  }

  /** The address in its shortest form, as the far end will read it. */
  function Shortest(a: UdpAddr): UdpAddr {
    match To4(a.ip)
    case Some(ip4) => a.(ip := ip4)
    case None => a
  }

  predicate IsIp(ip: seq<byte>) {
    |ip| == 4 || |ip| == 16
  }

  predicate IsPort(port: int) {
    0 <= port < 0x1_0000
  }

  // ----- the codec

  /** Two bytes, high byte first, of the low 16 bits. */
  function BigEndian(n: int): seq<byte> {
    [(n / 256 % 256) as byte, (n % 256) as byte]
  }

  function FromBigEndian(high: byte, low: byte): int {
    high as int * 256 + low as int
  }

  function Header(a: UdpAddr): seq<byte> {
    match To4(a.ip)
    case Some(ip4) => [VERSION_IPV4, |ip4| as byte] + ip4 + BigEndian(a.port)
    case None => [VERSION_IPV6, |To16(a.ip)| as byte] + To16(a.ip) + BigEndian(a.port)
  }

  function Packed(a: UdpAddr, data: seq<byte>): seq<byte> {
    Header(a) + data
  }

  datatype Parsed = Parsed(addr: UdpAddr, data: seq<byte>)

  function UnpackAddress(packet: seq<byte>): Result<Parsed> {
    if |packet| < MIN_HEADER_SIZE then Err
    else
      var version, ipLen := packet[0], packet[1] as int;
      var headerSize := 2 + ipLen + 2;
      if |packet| < headerSize then Err
      else if version == VERSION_IPV4 && ipLen != 4 then Err
      else if version == VERSION_IPV6 && ipLen != 16 then Err
      else Ok(Parsed(UdpAddr(packet[2..2 + ipLen], FromBigEndian(packet[2 + ipLen], packet[3 + ipLen])),
                     packet[headerSize..]))
  }

  /** The header is filled in place and the payload appended. */
  method PackAddress(a: UdpAddr, data: seq<byte>) returns (packet: seq<byte>)
    ensures packet == Packed(a, data)
  {
    var version: byte;
    var ipBytes: seq<byte>;
    var ip4 := To4(a.ip);
    if ip4.Some? {
      version, ipBytes := VERSION_IPV4, ip4.value;
    } else {
      version, ipBytes := VERSION_IPV6, To16(a.ip);
    }
    var size := 2 + |ipBytes| + 2;
    var header := new byte[size];
    header[0] := version;
    header[1] := |ipBytes| as byte;
    for i := 0 to |ipBytes|
      invariant header[0] == version && header[1] == |ipBytes| as byte
      invariant header[2..2 + i] == ipBytes[..i]
    {
      header[2 + i] := ipBytes[i];
    }
    header[size - 2] := (a.port / 256 % 256) as byte;
    header[size - 1] := (a.port % 256) as byte;
    assert header[..][2..2 + |ipBytes|] == header[2..2 + |ipBytes|] == ipBytes;
    HeaderLaidOut(header[..], version, ipBytes);
    packet := header[..] + data;
  }

  lemma HeaderLaidOut(header: seq<byte>, version: byte, ip: seq<byte>)
    requires |ip| < 256 && |header| == 4 + |ip|
    requires header[0] == version && header[1] == |ip| as byte && header[2..2 + |ip|] == ip
    ensures header == [version, |ip| as byte] + ip + [header[2 + |ip|], header[3 + |ip|]]
  {
    assert header == header[..2] + header[2..2 + |ip|] + header[2 + |ip|..];
  }

  // ----- the parser undoes the printer

  lemma BigEndianRoundTrip(port: int)
    requires IsPort(port)
    ensures FromBigEndian(BigEndian(port)[0], BigEndian(port)[1]) == port
  {
  }

  lemma BytesRoundTrip(high: byte, low: byte)
    ensures IsPort(FromBigEndian(high, low)) && BigEndian(FromBigEndian(high, low)) == [high, low]
  {
    var n := FromBigEndian(high, low);
    assert n / 256 == high as int && n % 256 == low as int;
  }

  /** A packet laid out as version, length, IP, port and payload parses into those parts. */
  lemma ParseLayout(version: byte, ip: seq<byte>, high: byte, low: byte, data: seq<byte>)
    requires |ip| < 256
    requires version == VERSION_IPV4 ==> |ip| == 4
    requires version == VERSION_IPV6 ==> |ip| == 16
    ensures UnpackAddress([version, |ip| as byte] + ip + [high, low] + data) ==
            Ok(Parsed(UdpAddr(ip, FromBigEndian(high, low)), data))
  {
    var packet := [version, |ip| as byte] + ip + [high, low] + data;
    assert packet[2..2 + |ip|] == ip && packet[2 + |ip| + 2..] == data;
  }

  /** Every address and payload survive packing, the address in its shortest form. */
  lemma UnpackPacked(a: UdpAddr, data: seq<byte>)
    requires IsIp(a.ip) && IsPort(a.port)
    ensures UnpackAddress(Packed(a, data)) == Ok(Parsed(Shortest(a), data))
  {
    BigEndianRoundTrip(a.port);
    var port := BigEndian(a.port);
    if To4(a.ip).Some? {
      ParseLayout(VERSION_IPV4, To4(a.ip).value, port[0], port[1], data);
    } else {
      ParseLayout(VERSION_IPV6, To16(a.ip), port[0], port[1], data);
    }
  }

  /** A 4-byte IP is packed alike in either of the forms Go holds it in, and read back as it is. */
  lemma Ipv4InBytes(ip: seq<byte>, port: int, data: seq<byte>)
    requires |ip| == 4 && IsPort(port)
    ensures var packet := [0x00, 4] + ip + [(port / 256) as byte, (port % 256) as byte] + data;
            && Packed(UdpAddr(ip, port), data) == packet
            && Packed(UdpAddr([0, 0, 0, 0, 0, 0, 0, 0, 0, 0, 0xFF, 0xFF] + ip, port), data) == packet
            && UnpackAddress(packet) == Ok(Parsed(UdpAddr(ip, port), data))
  {
    hide UnpackAddress, BigEndian;
    var mapped := [0, 0, 0, 0, 0, 0, 0, 0, 0, 0, 0xFF, 0xFF] + ip;
    assert mapped[..12] == [0, 0, 0, 0, 0, 0, 0, 0, 0, 0, 0xFF, 0xFF] && mapped[12..] == ip;
    LowBytes(port);
    UnpackPacked(UdpAddr(ip, port), data);
  }

  /** Any other 16-byte IP is packed whole. */
  lemma Ipv6InBytes(ip: seq<byte>, port: int, data: seq<byte>)
    requires |ip| == 16 && ip[..12] != [0, 0, 0, 0, 0, 0, 0, 0, 0, 0, 0xFF, 0xFF] && IsPort(port)
    ensures var packet := [0x80, 16] + ip + [(port / 256) as byte, (port % 256) as byte] + data;
            && Packed(UdpAddr(ip, port), data) == packet
            && UnpackAddress(packet) == Ok(Parsed(UdpAddr(ip, port), data))
  {
    hide UnpackAddress, BigEndian;
    LowBytes(port);
    UnpackPacked(UdpAddr(ip, port), data);
  }

  lemma LowBytes(port: int)
    requires IsPort(port)
    ensures BigEndian(port) == [(port / 256) as byte, (port % 256) as byte]
  {
  }

  /**
   What is accepted: four bytes at least, all that the length byte asks for, and a length that agrees with the version
   if the version is one of the two. What is read is then the bytes in their places.
   */
  lemma AcceptedBytes(packet: seq<byte>)
    ensures UnpackAddress(packet).Ok? <==>
            && |packet| >= 4 && |packet| >= 4 + packet[1] as int
            && (packet[0] == 0x00 ==> packet[1] == 4) && (packet[0] == 0x80 ==> packet[1] == 16)
    ensures UnpackAddress(packet).Ok? ==>
              var n, parsed := packet[1] as int, UnpackAddress(packet).value;
              && packet == packet[..2] + parsed.addr.ip + packet[2 + n..4 + n] + parsed.data
              && |parsed.addr.ip| == n
              && parsed.addr.port == 256 * packet[2 + n] as int + packet[3 + n] as int
  {
  }

  /** An address that is neither IPv4 nor IPv6 packs into a packet the other end refuses. */
  lemma OddAddressRefused(a: UdpAddr, data: seq<byte>)
    requires !IsIp(a.ip)
    ensures UnpackAddress(Packed(a, data)) == Err
  {
  }

  /** Nothing is hidden in a header: packets determine the address, in shortest form, and the payload. */
  lemma PackedInjective(a: UdpAddr, data: seq<byte>, b: UdpAddr, other: seq<byte>)
    requires IsIp(a.ip) && IsPort(a.port) && IsIp(b.ip) && IsPort(b.port)
    requires Packed(a, data) == Packed(b, other)
    ensures Shortest(a) == Shortest(b) && data == other
  {
    UnpackPacked(a, data);
    UnpackPacked(b, other);
  }

  /**
   Packing a parsed packet gives the packet back exactly when its version is one the printer writes and its
   IP is not an IPv4-mapped one, which the printer would shorten.
   */
  lemma PackUnpacked(packet: seq<byte>)
    requires UnpackAddress(packet).Ok?
    ensures var parsed := UnpackAddress(packet).value;
            Packed(parsed.addr, parsed.data) == packet <==>
            packet[0] in {VERSION_IPV4, VERSION_IPV6} && !IsMapped(parsed.addr.ip)
  {
    var parsed := UnpackAddress(packet).value;
    var n := |parsed.addr.ip|;
    BytesRoundTrip(packet[2 + n], packet[3 + n]);
    var layout := [packet[0], n as byte] + parsed.addr.ip + [packet[2 + n], packet[3 + n]] + parsed.data;
    assert packet == layout;
    var repacked := Packed(parsed.addr, parsed.data);
    assert repacked[0] in {VERSION_IPV4, VERSION_IPV6};
    if IsMapped(parsed.addr.ip) {
      assert repacked[1] == 4 && packet[1] == 16;
    }
  }
}
