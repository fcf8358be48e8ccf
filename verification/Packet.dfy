/** The verdict path's packet parser (`parse_packet` in crates/daemon/src/firewall.rs). */
module Packet {
  import opened Types

  datatype Endpoints = Endpoints(proto: Protocol, localPort: nat, remote: IpAddr, remotePort: nat)

  /** Protocol, header length and destination of the network layer, if the header is accepted. */
  datatype Network = Network(proto: byte, l4: nat, remote: IpAddr)

  function ParseNetwork(p: Bytes): Option<Network> {
    if p == [] then None
    else
      var version := p[0] as nat / 16;
      if version == 4 then
        var headerLength := p[0] as nat % 16 * 4;
        if |p| < headerLength + 4 || headerLength < 20 then None
        else Some(Network(p[9], headerLength, V4(p[16..20])))
      else if version == 6 then
        if |p| < 40 + 4 then None
        else Some(Network(p[6], 40, V6(p[24..40])))
      else None
  }

  function ProtocolOf(b: byte): Option<Protocol> {
    if b == 6 then Some(Tcp) else if b == 17 then Some(Udp) else None
  }

  /** `u16::from_be_bytes`. */
  function Port(high: byte, low: byte): nat {
    high as nat * 256 + low as nat
  }

  function ParsePacket(p: Bytes): Option<Endpoints> {
    match ParseNetwork(p)
    case None => None
    case Some(net) =>
      match ProtocolOf(net.proto)
      case None => None
      case Some(proto) =>
        if |p| < net.l4 + 4 then None
        else
          Some(Endpoints(proto, Port(p[net.l4], p[net.l4 + 1]), net.remote, Port(p[net.l4 + 2], p[net.l4 + 3])))
  }

  // ---------------------------------------------------------------- building the headers

  /** The fields of an IPv4 header, section 3.1 of RFC 791, in wire order: the type of service up
      to the time to live, the checksum, the addresses, and the options. */
  datatype Ipv4Header = Ipv4Header(middle: Bytes, proto: byte, checksum: Bytes, src: Octets4, dst: Octets4,
                                   options: Bytes)

  /** The fields of an IPv6 header, section 3 of RFC 8200: traffic class and flow label share their
      first byte with the version. */
  datatype Ipv6Header = Ipv6Header(classHigh: nat, classAndFlow: Bytes, payloadLength: Bytes, next: byte,
                                   hopLimit: byte, src: Octets16, dst: Octets16)

  predicate WellFormedV4(h: Ipv4Header) {
    |h.middle| == 8 && |h.checksum| == 2 && |h.options| % 4 == 0 && |h.options| <= 40
  }

  predicate WellFormedV6(h: Ipv6Header) {
    h.classHigh < 16 && |h.classAndFlow| == 3 && |h.payloadLength| == 2
  }

  function BuildV4(h: Ipv4Header): Bytes
    requires WellFormedV4(h)
  {
    [(4 * 16 + 5 + |h.options| / 4) as byte] + h.middle + [h.proto] + h.checksum + h.src + h.dst + h.options
  }

  function BuildV6(h: Ipv6Header): Bytes
    requires WellFormedV6(h)
  {
    [(6 * 16 + h.classHigh) as byte] + h.classAndFlow + h.payloadLength + [h.next, h.hopLimit] + h.src + h.dst
  }

  function PortBytes(port: nat): Bytes
    requires port < 65536
  {
    [(port / 256) as byte, (port % 256) as byte]
  }

  /** A TCP (section 3.1 of RFC 9293) or UDP (RFC 768) segment: both start with the two ports. */
  function Segment(sport: nat, dport: nat, rest: Bytes): Bytes
    requires sport < 65536 && dport < 65536
  {
    PortBytes(sport) + PortBytes(dport) + rest
  }

  lemma SegmentPorts(header: Bytes, sport: nat, dport: nat, rest: Bytes)
    requires sport < 65536 && dport < 65536
    ensures var p, n := header + Segment(sport, dport, rest), |header|;
            && |p| >= n + 4
            && Port(p[n], p[n + 1]) == sport && Port(p[n + 2], p[n + 3]) == dport
  {
    var s := Segment(sport, dport, rest);
    assert s[..4] == PortBytes(sport) + PortBytes(dport);
    var p, n := header + s, |header|;
    assert p[n] == s[0] && p[n + 1] == s[1] && p[n + 2] == s[2] && p[n + 3] == s[3];
  }

  lemma V4Fields(h: Ipv4Header)
    requires WellFormedV4(h)
    ensures var b := BuildV4(h);
            && |b| == 20 + |h.options|
            && b[0] as nat / 16 == 4 && b[0] as nat % 16 * 4 == |b|
            && b[9] == h.proto && b[16..20] == h.dst
  {
    var b, front := BuildV4(h), [(4 * 16 + 5 + |h.options| / 4) as byte] + h.middle + [h.proto] + h.checksum + h.src;
    assert |front| == 16;
    assert b == front + h.dst + h.options;
    assert b[..16] == front && b[16..20] == h.dst;
    assert b[0] == front[0] && b[9] == front[9];
  }

  /** Parsing inverts the construction of any IPv4 packet, whatever its options. */
  lemma ParseBuiltV4(h: Ipv4Header, sport: nat, dport: nat, rest: Bytes)
    requires WellFormedV4(h) && sport < 65536 && dport < 65536
    ensures ParsePacket(BuildV4(h) + Segment(sport, dport, rest)) ==
            if h.proto == 6 then Some(Endpoints(Tcp, sport, V4(h.dst), dport))
            else if h.proto == 17 then Some(Endpoints(Udp, sport, V4(h.dst), dport))
            else None
  {
    var b, p := BuildV4(h), BuildV4(h) + Segment(sport, dport, rest);
    V4Fields(h);
    SegmentPorts(b, sport, dport, rest);
    assert p[0] == b[0] && p[9] == b[9] && p[16..20] == b[16..20];
  }

  lemma V6Fields(h: Ipv6Header)
    requires WellFormedV6(h)
    ensures var b := BuildV6(h);
            |b| == 40 && b[0] as nat / 16 == 6 && b[6] == h.next && b[24..40] == h.dst
  {
    var b := BuildV6(h);
    var front := [(6 * 16 + h.classHigh) as byte] + h.classAndFlow + h.payloadLength + [h.next, h.hopLimit];
    assert |front| == 8 && front[6] == h.next;
    assert b == front + h.src + h.dst;
    assert b[..8] == front && b[24..40] == h.dst;
    assert b[0] == front[0] && b[6] == front[6];
  }

  /** Parsing inverts the construction of any IPv6 packet without extension headers. */
  lemma ParseBuiltV6(h: Ipv6Header, sport: nat, dport: nat, rest: Bytes)
    requires WellFormedV6(h) && sport < 65536 && dport < 65536
    ensures ParsePacket(BuildV6(h) + Segment(sport, dport, rest)) ==
            if h.next == 6 then Some(Endpoints(Tcp, sport, V6(h.dst), dport))
            else if h.next == 17 then Some(Endpoints(Udp, sport, V6(h.dst), dport))
            else None
  {
    var b, p := BuildV6(h), BuildV6(h) + Segment(sport, dport, rest);
    V6Fields(h);
    SegmentPorts(b, sport, dport, rest);
    assert p[0] == b[0] && p[6] == b[6] && p[24..40] == b[24..40];
  }

  // ------------------------------------------------------- nothing else is ever accepted

  ghost predicate IsV4Packet(p: Bytes, e: Endpoints) {
    exists h: Ipv4Header, sport: nat, dport: nat, rest: Bytes ::
      && WellFormedV4(h) && sport < 65536 && dport < 65536
      && p == BuildV4(h) + Segment(sport, dport, rest)
      && ((h.proto == 6 && e.proto == Tcp) || (h.proto == 17 && e.proto == Udp))
      && e == Endpoints(e.proto, sport, V4(h.dst), dport)
  }

  ghost predicate IsV6Packet(p: Bytes, e: Endpoints) {
    exists h: Ipv6Header, sport: nat, dport: nat, rest: Bytes ::
      && WellFormedV6(h) && sport < 65536 && dport < 65536
      && p == BuildV6(h) + Segment(sport, dport, rest)
      && ((h.next == 6 && e.proto == Tcp) || (h.next == 17 && e.proto == Udp))
      && e == Endpoints(e.proto, sport, V6(h.dst), dport)
  }

  lemma PortSplits(high: byte, low: byte)
    ensures Port(high, low) < 65536 && PortBytes(Port(high, low)) == [high, low]
  {
  }

  lemma SegmentAt(p: Bytes, n: nat)
    requires n + 4 <= |p|
    ensures Port(p[n], p[n + 1]) < 65536 && Port(p[n + 2], p[n + 3]) < 65536
    ensures p == p[..n] + Segment(Port(p[n], p[n + 1]), Port(p[n + 2], p[n + 3]), p[n + 4..])
  {
    PortSplits(p[n], p[n + 1]);
    PortSplits(p[n + 2], p[n + 3]);
  }

  function HeaderV4(p: Bytes): Ipv4Header
    requires |p| >= 20
  {
    Ipv4Header(p[1..9], p[9], p[10..12], p[12..16], p[16..20], p[20..])
  }

  lemma RebuildV4(p: Bytes)
    requires 20 <= |p| <= 60 && |p| % 4 == 0 && p[0] as nat == 64 + |p| / 4
    ensures WellFormedV4(HeaderV4(p)) && BuildV4(HeaderV4(p)) == p
  {
    var h := HeaderV4(p);
    assert (4 * 16 + 5 + |h.options| / 4) as byte == p[0];
    assert p == [p[0]] + p[1..9] + [p[9]] + p[10..12] + p[12..16] + p[16..20] + p[20..];
  }

  function HeaderV6(p: Bytes): Ipv6Header
    requires |p| == 40
  {
    Ipv6Header(p[0] as nat % 16, p[1..4], p[4..6], p[6], p[7], p[8..24], p[24..40])
  }

  lemma RebuildV6(p: Bytes)
    requires |p| == 40 && p[0] as nat / 16 == 6
    ensures WellFormedV6(HeaderV6(p)) && BuildV6(HeaderV6(p)) == p
  {
    assert p == [p[0]] + p[1..4] + p[4..6] + [p[6], p[7]] + p[8..24] + p[24..40];
  }

  lemma AcceptedV4(p: Bytes, e: Endpoints)
    requires ParsePacket(p) == Some(e) && p[0] as nat / 16 == 4
    ensures IsV4Packet(p, e)
  {
    var n := p[0] as nat % 16 * 4;
    SegmentAt(p, n);
    var b := p[..n];
    RebuildV4(b);
    assert HeaderV4(b).dst == p[16..20] && HeaderV4(b).proto == p[9];
    assert p == BuildV4(HeaderV4(b)) + Segment(e.localPort, e.remotePort, p[n + 4..]);
  }

  lemma AcceptedV6(p: Bytes, e: Endpoints)
    requires ParsePacket(p) == Some(e) && p[0] as nat / 16 == 6
    ensures IsV6Packet(p, e)
  {
    SegmentAt(p, 40);
    var b := p[..40];
    RebuildV6(b);
    assert HeaderV6(b).dst == p[24..40] && HeaderV6(b).next == p[6];
    assert p == BuildV6(HeaderV6(b)) + Segment(e.localPort, e.remotePort, p[44..]);
  }

  /** The parser accepts exactly what has an IPv4 or plain IPv6 header for TCP or UDP and four more
      bytes, and reads these as the two ports. The fragment offset is among the header's free
      bytes: of a fragment other than the first, payload bytes are taken for ports. */
  lemma AcceptsExactly(p: Bytes, e: Endpoints)
    ensures ParsePacket(p) == Some(e) <==> IsV4Packet(p, e) || IsV6Packet(p, e)
  {
    if ParsePacket(p) == Some(e) {
      if p[0] as nat / 16 == 4 {
        AcceptedV4(p, e);
      } else {
        AcceptedV6(p, e);
      }
    }
    if IsV4Packet(p, e) {
      var h: Ipv4Header, sport: nat, dport: nat, rest: Bytes :|
        && WellFormedV4(h) && sport < 65536 && dport < 65536
        && p == BuildV4(h) + Segment(sport, dport, rest)
        && ((h.proto == 6 && e.proto == Tcp) || (h.proto == 17 && e.proto == Udp))
        && e == Endpoints(e.proto, sport, V4(h.dst), dport);
      ParseBuiltV4(h, sport, dport, rest);
    }
    if IsV6Packet(p, e) {
      var h: Ipv6Header, sport: nat, dport: nat, rest: Bytes :|
        && WellFormedV6(h) && sport < 65536 && dport < 65536
        && p == BuildV6(h) + Segment(sport, dport, rest)
        && ((h.next == 6 && e.proto == Tcp) || (h.next == 17 && e.proto == Udp))
        && e == Endpoints(e.proto, sport, V6(h.dst), dport);
      ParseBuiltV6(h, sport, dport, rest);
    }
  }

  /** A packet byte by byte: TCP from port 51234 to port 443 of 93.184.216.34. */
  lemma KnownPacket(p: Bytes)
    requires |p| == 40 && p[0] == 0x45 && p[9] == 6
    requires p[16] == 93 && p[17] == 184 && p[18] == 216 && p[19] == 34
    requires p[20] == 0xC8 && p[21] == 0x22 && p[22] == 0x01 && p[23] == 0xBB
    ensures ParsePacket(p) == Some(Endpoints(Tcp, 51234, V4([93, 184, 216, 34]), 443))
  {
    assert p[16..20] == [93, 184, 216, 34];
  }
}
