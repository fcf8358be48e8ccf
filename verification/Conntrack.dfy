/**
 Conntrack lines and flow keys: the token parser of crates/daemon/src/conntrack.rs.

 Printing and parsing of IP addresses is library code: it is a pair of functions here, assumed to
 round trip and to print tokens without '-' and '=' wherever a theorem needs it.
 */
module Conntrack {
  import opened Types
  import opened Text

  datatype AddrText = AddrText(render: IpAddr -> string, parse: string -> Option<IpAddr>)

  ghost predicate Faithful(codec: AddrText) {
    forall a :: codec.parse(codec.render(a)) == Some(a) && PrintsClean(codec, a)
  }

  predicate PrintsClean(codec: AddrText, a: IpAddr) {
    IsToken(codec.render(a)) && '-' !in codec.render(a) && '=' !in codec.render(a)
  }

  datatype ParsedFlow = ParsedFlow(
    key: string,
    proto: Protocol,
    local: IpAddr,
    localPort: nat,
    remote: IpAddr,
    remotePort: nat,
    sent: nat,
    recv: nat)

  function ProtoName(proto: Protocol): string {
    match proto
    case Tcp => "tcp"
    case Udp => "udp"
    case Other => "other"
  }

  function Endpoint(codec: AddrText, addr: IpAddr, port: nat): string {
    codec.render(addr) + ":" + Decimal(port)
  }

  /** Stable key of a flow: the protocol and the 5-tuple as text. */
  function FlowKey(codec: AddrText, proto: Protocol, local: IpAddr, localPort: nat,
                   remote: IpAddr, remotePort: nat): string {
    ProtoName(proto) + ":" + (Endpoint(codec, local, localPort) + "-" + Endpoint(codec, remote, remotePort))
  }

  lemma EndpointInjective(codec: AddrText, a: IpAddr, p: nat, b: IpAddr, q: nat)
    requires Faithful(codec) && Endpoint(codec, a, p) == Endpoint(codec, b, q)
    ensures a == b && p == q
  {
    DecimalIsClean(p);
    DecimalIsClean(q);
    SplitLastUnique(codec.render(a), Decimal(p), codec.render(b), Decimal(q), ':');
    DecimalInjective(p, q);
    assert codec.parse(codec.render(a)) == Some(a) && codec.parse(codec.render(b)) == Some(b);
  }

  lemma EndpointHasNoDash(codec: AddrText, a: IpAddr, p: nat)
    requires Faithful(codec)
    ensures '-' !in Endpoint(codec, a, p)
  {
    DecimalIsClean(p);
    assert PrintsClean(codec, a);
  }

  /** The flow key determines the protocol and the 5-tuple. */
  lemma FlowKeyInjective(codec: AddrText, f: ParsedFlow, g: ParsedFlow)
    requires Faithful(codec)
    requires FlowKey(codec, f.proto, f.local, f.localPort, f.remote, f.remotePort)
             == FlowKey(codec, g.proto, g.local, g.localPort, g.remote, g.remotePort)
    ensures f.proto == g.proto && f.local == g.local && f.localPort == g.localPort
    ensures f.remote == g.remote && f.remotePort == g.remotePort
  {
    var a, b := Endpoint(codec, f.local, f.localPort), Endpoint(codec, f.remote, f.remotePort);
    var c, d := Endpoint(codec, g.local, g.localPort), Endpoint(codec, g.remote, g.remotePort);
    SplitFirstUnique(ProtoName(f.proto), a + "-" + b, ProtoName(g.proto), c + "-" + d, ':');
    EndpointHasNoDash(codec, f.local, f.localPort);
    EndpointHasNoDash(codec, g.local, g.localPort);
    SplitFirstUnique(a, b, c, d, '-');
    EndpointInjective(codec, f.local, f.localPort, g.local, g.localPort);
    EndpointInjective(codec, f.remote, f.remotePort, g.remote, g.remotePort);
  }

  lemma KnownPorts()
    ensures Decimal(51234) == "51234" && Decimal(443) == "443"
  {
    assert Decimal(51) == "51" && Decimal(512) == "512" && Decimal(5123) == "5123";
    assert Decimal(44) == "44";
  }

  /** How a key is written, on an example. */
  lemma KnownKey(codec: AddrText, local: IpAddr, remote: IpAddr)
    ensures FlowKey(codec, Tcp, local, 51234, remote, 443)
            == "tcp:" + codec.render(local) + ":51234-" + codec.render(remote) + ":443"
  {
    KnownPorts();
    Written(codec.render(local), "51234", codec.render(remote), "443");
  }

  lemma Written(a: string, p: string, b: string, q: string)
    ensures "tcp" + ":" + ((a + ":" + p) + "-" + (b + ":" + q)) == "tcp:" + a + (":" + p + "-") + b + (":" + q)
  {
  }

  // ------------------------------------------------------------------------- the parser

  /** What the token loop has gathered. */
  datatype Scan = Scan(orig: map<string, string>, origBytes: Option<nat>, replyBytes: Option<nat>, inReply: bool)

  const START: Scan := Scan(map[], None, None, false)

  function ScanPair(s: Scan, k: string, v: string): Scan {
    var inReply := s.inReply || (k == "src" && "src" in s.orig);
    if inReply then
      s.(inReply := true,
         replyBytes := if k == "bytes" && s.replyBytes.None? then ParseUnsigned(v, 10, U64_MAX) else s.replyBytes)
    else if k == "bytes" then
      s.(origBytes := if s.origBytes.None? then ParseUnsigned(v, 10, U64_MAX) else s.origBytes)
    else
      s.(orig := if k in s.orig then s.orig else s.orig[k := v])
  }

  function ScanToken(s: Scan, token: string): Scan {
    match SplitOnce(token, '=')
    case None => s
    case Some((k, v)) => ScanPair(s, k, v)
  }

  function ScanTokens(s: Scan, tokens: seq<string>): Scan
    decreases |tokens|
  {
    if tokens == [] then s else ScanTokens(ScanToken(s, tokens[0]), tokens[1..])
  }

  function GetOr0(n: Option<nat>): nat {
    if n.Some? then n.value else 0
  }

  function Finish(codec: AddrText, proto: Protocol, s: Scan): Option<ParsedFlow> {
    if "src" !in s.orig || "dst" !in s.orig || "sport" !in s.orig || "dport" !in s.orig then None
    else
      var local, remote := codec.parse(s.orig["src"]), codec.parse(s.orig["dst"]);
      var localPort := ParseUnsigned(s.orig["sport"], 10, U16_MAX);
      var remotePort := ParseUnsigned(s.orig["dport"], 10, U16_MAX);
      if local.None? || remote.None? || localPort.None? || remotePort.None? then None
      else
        var key := FlowKey(codec, proto, local.value, localPort.value, remote.value, remotePort.value);
        Some(ParsedFlow(key, proto, local.value, localPort.value, remote.value, remotePort.value,
                        GetOr0(s.origBytes), GetOr0(s.replyBytes)))
  }

  function ProtoOf(token: string): Option<Protocol> {
    if token == "tcp" then Some(Tcp) else if token == "udp" then Some(Udp) else None
  }

  /** Skip the state token that a TCP line may carry after its header. */
  function AfterState(proto: Protocol, tokens: seq<string>): seq<string> {
    if proto == Tcp && tokens != [] && '=' !in tokens[0] then tokens[1..] else tokens
  }

  function ParseTokens(codec: AddrText, tokens: seq<string>): Option<ParsedFlow> {
    if |tokens| < 5 then None
    else
      match ProtoOf(tokens[2])
      case None => None
      case Some(proto) => Finish(codec, proto, ScanTokens(START, AfterState(proto, tokens[5..])))
  }

  method ParseLine(codec: AddrText, line: string) returns (flow: Option<ParsedFlow>)
    ensures flow == ParseTokens(codec, SplitWhitespace(line))
  {
    var tokens := SplitWhitespace(line);
    if |tokens| < 3 || ProtoOf(tokens[2]).None? || |tokens| < 5 {
      return None;
    }
    var proto := ProtoOf(tokens[2]).value;
    var rest := AfterState(proto, tokens[5..]);

    var orig: map<string, string> := map[];
    var replyBytes: Option<nat>, origBytes: Option<nat> := None, None;
    var inReply := false;
    for i := 0 to |rest|
      invariant ScanTokens(Scan(orig, origBytes, replyBytes, inReply), rest[i..]) == ScanTokens(START, rest)
    {
      assert rest[i..][1..] == rest[i + 1..];
      var pair := SplitOnce(rest[i], '=');
      if pair.Some? {
        var (k, v) := pair.value;
        if k == "src" && "src" in orig {
          inReply := true;
        }
        if inReply {
          if k == "bytes" && replyBytes.None? {
            replyBytes := ParseUnsigned(v, 10, U64_MAX);
          }
        } else if k == "bytes" {
          if origBytes.None? {
            origBytes := ParseUnsigned(v, 10, U64_MAX);
          }
        } else if k !in orig {
          orig := orig[k := v];
        }
      }
    }
    flow := Finish(codec, proto, Scan(orig, origBytes, replyBytes, inReply));
  }

  /** A line too short, or of another protocol, is skipped, whatever else is on it. */
  lemma OtherLinesAreSkipped(codec: AddrText, tokens: seq<string>)
    requires |tokens| < 5 || (tokens[2] != "tcp" && tokens[2] != "udp")
    ensures ParseTokens(codec, tokens) == None
  {
  }

  /** Whatever the line, the key of a parsed flow is the key of its tuple. */
  ghost predicate KeyedByTuple(codec: AddrText, f: ParsedFlow) {
    f.key == FlowKey(codec, f.proto, f.local, f.localPort, f.remote, f.remotePort)
  }

  // -------------------------------------------------------------- what the parser makes of any line

  /** The key=value tokens, taken apart. */
  function KeyValues(tokens: seq<string>): seq<(string, string)> {
    if tokens == [] then []
    else
      var pair := SplitOnce(tokens[|tokens| - 1], '=');
      KeyValues(tokens[..|tokens| - 1]) + if pair.Some? then [pair.value] else []
  }

  /** Where the reply direction starts: at the second src, or else at the end. */
  function ReplyAt(kvs: seq<(string, string)>): (n: nat)
    ensures n <= |kvs|
  {
    if kvs == [] then 0
    else
      var n, last := ReplyAt(kvs[..|kvs| - 1]), kvs[|kvs| - 1];
      if n < |kvs| - 1 || (last.0 == "src" && FirstOf(kvs[..|kvs| - 1], "src").Some?) then n else |kvs|
  }

  /** The first value of a key. */
  function FirstOf(kvs: seq<(string, string)>, k: string): Option<string> {
    if kvs == [] then None
    else if kvs[0].0 == k then Some(kvs[0].1)
    else FirstOf(kvs[1..], k)
  }

  /** The first byte count that is a number. */
  function FirstCount(kvs: seq<(string, string)>): Option<nat> {
    if kvs == [] then None
    else if kvs[0].0 == "bytes" && ParseUnsigned(kvs[0].1, 10, U64_MAX).Some? then ParseUnsigned(kvs[0].1, 10, U64_MAX)
    else FirstCount(kvs[1..])
  }

  lemma {:induction false} FirstMore(kvs: seq<(string, string)>, last: (string, string), k: string)
    ensures FirstOf(kvs + [last], k) ==
            if FirstOf(kvs, k).Some? then FirstOf(kvs, k) else if last.0 == k then Some(last.1) else None
    ensures FirstCount(kvs + [last]) ==
            if FirstCount(kvs).Some? then FirstCount(kvs)
            else if last.0 == "bytes" then ParseUnsigned(last.1, 10, U64_MAX) else None
  {
    if kvs == [] {
      assert kvs + [last] == [last] && [last][1..] == [];
    } else {
      assert (kvs + [last])[1..] == kvs[1..] + [last];
      FirstMore(kvs[1..], last, k);
    }
  }

  /** Of any line: the original direction is what stands before the second src, each key with its first
      value there, and the two byte counts are the first of their directions. */
  ghost predicate Gathers(s: Scan, kvs: seq<(string, string)>) {
    var n := ReplyAt(kvs);
    && (s.inReply <==> n < |kvs|)
    && (forall k :: k != "bytes" ==> Get(s.orig, k) == FirstOf(kvs[..n], k))
    && s.origBytes == FirstCount(kvs[..n]) && s.replyBytes == FirstCount(kvs[n..])
  }

  lemma GathersMore(s: Scan, kvs: seq<(string, string)>, last: (string, string))
    requires Gathers(s, kvs)
    ensures Gathers(ScanPair(s, last.0, last.1), kvs + [last])
  {
    var n, more, t := ReplyAt(kvs), kvs + [last], ScanPair(s, last.0, last.1);
    assert more[..|more| - 1] == kvs;
    if n < |kvs| {
      assert more[..n] == kvs[..n] && more[n..] == kvs[n..] + [last];
      FirstMore(kvs[n..], last, "");
    } else {
      assert kvs[..n] == kvs && kvs[n..] == [];
      assert "src" in s.orig <==> FirstOf(kvs, "src").Some? by {
        assert Get(s.orig, "src") == FirstOf(kvs[..n], "src");
      }
      if last.0 == "src" && FirstOf(kvs, "src").Some? {
        assert more[..n] == kvs && more[n..] == [last] && [last][1..] == [];
      } else {
        assert more[..|more|] == more && more[|more|..] == [];
        forall k | k != "bytes" ensures Get(t.orig, k) == FirstOf(more, k) {
          FirstMore(kvs, last, k);
          assert Get(s.orig, k) == FirstOf(kvs[..n], k);
        }
        FirstMore(kvs, last, "");
      }
    }
  }

  lemma {:induction false} ScanGathers(tokens: seq<string>)
    ensures Gathers(ScanTokens(START, tokens), KeyValues(tokens))
    decreases |tokens|
  {
    if tokens == [] {
    } else {
      var init, last := tokens[..|tokens| - 1], tokens[|tokens| - 1];
      ScanGathers(init);
      assert tokens == init + [last];
      ScanConcat(START, init, [last]);
      assert [last][1..] == [];
      var pair := SplitOnce(last, '=');
      if pair.Some? {
        GathersMore(ScanTokens(START, init), KeyValues(init), pair.value);
      } else {
        assert KeyValues(tokens) == KeyValues(init);
      }
    }
  }

  lemma SkippedStateIsNoPair(proto: Protocol, tokens: seq<string>)
    ensures ScanTokens(START, AfterState(proto, tokens)) == ScanTokens(START, tokens)
  {
    if AfterState(proto, tokens) != tokens {
      SplitOnceNone(tokens[0], '=');
    }
  }

  /** Whatever the line: it is parsed exactly if it is of TCP or UDP and the first src, dst, sport and
      dport before the second src are addresses and ports, and then to these and to the first byte count
      of each direction, 0 if there is none. */
  lemma ParseMeans(codec: AddrText, tokens: seq<string>)
    requires |tokens| >= 5
    ensures var kvs := KeyValues(tokens[5..]);
            var n := ReplyAt(kvs);
            var src, dst := FirstOf(kvs[..n], "src"), FirstOf(kvs[..n], "dst");
            var sport, dport := FirstOf(kvs[..n], "sport"), FirstOf(kvs[..n], "dport");
            var flow := ParseTokens(codec, tokens);
            && (flow.Some? <==>
                  && (tokens[2] == "tcp" || tokens[2] == "udp")
                  && src.Some? && dst.Some? && sport.Some? && dport.Some?
                  && codec.parse(src.value).Some? && codec.parse(dst.value).Some?
                  && ParseUnsigned(sport.value, 10, U16_MAX).Some? && ParseUnsigned(dport.value, 10, U16_MAX).Some?)
            && (flow.Some? ==>
                  && flow.value.proto == (if tokens[2] == "tcp" then Tcp else Udp)
                  && Some(flow.value.local) == codec.parse(src.value)
                  && Some(flow.value.remote) == codec.parse(dst.value)
                  && Some(flow.value.localPort) == ParseUnsigned(sport.value, 10, U16_MAX)
                  && Some(flow.value.remotePort) == ParseUnsigned(dport.value, 10, U16_MAX)
                  && flow.value.sent == (if FirstCount(kvs[..n]).Some? then FirstCount(kvs[..n]).value else 0)
                  && flow.value.recv == (if FirstCount(kvs[n..]).Some? then FirstCount(kvs[n..]).value else 0))
  {
    var rest := tokens[5..];
    ScanGathers(rest);
    var proto := ProtoOf(tokens[2]);
    if proto.Some? {
      SkippedStateIsNoPair(proto.value, rest);
      var s, kvs := ScanTokens(START, rest), KeyValues(rest);
      assert Get(s.orig, "src") == FirstOf(kvs[..ReplyAt(kvs)], "src");
      assert Get(s.orig, "dst") == FirstOf(kvs[..ReplyAt(kvs)], "dst");
      assert Get(s.orig, "sport") == FirstOf(kvs[..ReplyAt(kvs)], "sport");
      assert Get(s.orig, "dport") == FirstOf(kvs[..ReplyAt(kvs)], "dport");
    }
  }

  // ------------------------------------------------------------------ the documented format

  /** One direction's accounting, either part of it optional: the packet count as text, and the
      byte count. */
  datatype Counters = Counters(packets: Option<string>, bytes: Option<nat>)

  /** A line in the documented format, apart from its layout. `src` and `dst` are any texts of the
      two addresses, not necessarily those the daemon prints: the line is written by the kernel.
      `tail` are the key=value tokens after the reply direction (mark, use, ...). */
  datatype FlowLine = FlowLine(
    header: seq<string>,
    proto: Protocol,
    src: string,
    local: IpAddr,
    localPort: nat,
    dst: string,
    remote: IpAddr,
    remotePort: nat,
    sent: Counters,
    reply: seq<string>,
    recv: Counters,
    tail: seq<string>)

  function CounterTokens(c: Counters): seq<string> {
    (if c.packets.Some? then ["packets=" + c.packets.value] else [])
    + (if c.bytes.Some? then ["bytes=" + Decimal(c.bytes.value)] else [])
  }

  function BytesOf(c: Counters): nat {
    GetOr0(c.bytes)
  }

  function OriginalTokens(f: FlowLine): seq<string> {
    ["src=" + f.src, "dst=" + f.dst, "sport=" + Decimal(f.localPort), "dport=" + Decimal(f.remotePort)]
    + CounterTokens(f.sent)
  }

  /** The reply direction: any addresses and ports, as address translation may rewrite them. */
  function ReplyTokens(f: FlowLine): seq<string>
    requires |f.reply| == 4
  {
    ["src=" + f.reply[0], "dst=" + f.reply[1], "sport=" + f.reply[2], "dport=" + f.reply[3]]
    + CounterTokens(f.recv)
  }

  predicate IsPair(token: string) {
    '=' in token
  }

  predicate KeyIs(token: string, key: string) {
    var pair := SplitOnce(token, '=');
    pair.Some? && pair.value.0 == key
  }

  /** The key=value tokens among `tokens`, in order. */
  function Pairs(tokens: seq<string>): seq<string> {
    if tokens == [] then []
    else if IsPair(tokens[0]) then [tokens[0]] + Pairs(tokens[1..])
    else Pairs(tokens[1..])
  }

  /** `tokens` render `f`: the header, then the pairs of both directions and the tail in order,
      with any tokens without '=' ([ASSURED], a TCP state, ...) anywhere after the header. */
  ghost predicate Renders(codec: AddrText, f: FlowLine, tokens: seq<string>) {
    && f.proto != Other
    && codec.parse(f.src) == Some(f.local) && codec.parse(f.dst) == Some(f.remote)
    && f.localPort <= U16_MAX && f.remotePort <= U16_MAX
    && BytesOf(f.sent) <= U64_MAX && BytesOf(f.recv) <= U64_MAX
    && |f.header| == 5 && f.header[2] == ProtoName(f.proto)
    && |f.reply| == 4
    && (f.recv.bytes.None? ==> forall t :: t in f.tail ==> !KeyIs(t, "bytes"))
    && |tokens| >= 5 && tokens[..5] == f.header
    && Pairs(tokens[5..]) == OriginalTokens(f) + ReplyTokens(f) + f.tail
  }

  lemma {:induction false} ScanIgnoresNoise(s: Scan, tokens: seq<string>)
    ensures ScanTokens(s, tokens) == ScanTokens(s, Pairs(tokens))
    decreases |tokens|
  {
    if tokens == [] {
    } else {
      SplitOnceNone(tokens[0], '=');
      ScanIgnoresNoise(ScanToken(s, tokens[0]), tokens[1..]);
      if IsPair(tokens[0]) {
        assert ([tokens[0]] + Pairs(tokens[1..]))[1..] == Pairs(tokens[1..]);
      }
    }
  }

  lemma {:induction false} ScanConcat(s: Scan, a: seq<string>, b: seq<string>)
    ensures ScanTokens(s, a + b) == ScanTokens(ScanTokens(s, a), b)
    decreases |a|
  {
    if a == [] {
      assert a + b == b;
    } else {
      assert (a + b)[1..] == a[1..] + b;
      ScanConcat(ScanToken(s, a[0]), a[1..], b);
    }
  }

  lemma ScanKeyValue(s: Scan, k: string, v: string)
    requires '=' !in k
    ensures ScanToken(s, k + "=" + v) == ScanPair(s, k, v)
  {
    SplitOnceAt(k, '=', v);
  }

  lemma ScanTwo(s: Scan, a: string, b: string)
    ensures ScanTokens(s, [a, b]) == ScanToken(ScanToken(s, a), b)
  {
    ScanConcat(s, [a], [b]);
    assert [a] + [b] == [a, b];
    assert [a][1..] == [] && [b][1..] == [];
  }

  lemma ScanFour(s: Scan, a: string, b: string, c: string, d: string)
    ensures ScanTokens(s, [a, b, c, d]) == ScanToken(ScanToken(ScanToken(ScanToken(s, a), b), c), d)
  {
    ScanConcat(s, [a, b], [c, d]);
    assert [a, b] + [c, d] == [a, b, c, d];
    ScanTwo(s, a, b);
    ScanTwo(ScanTokens(s, [a, b]), c, d);
  }

  lemma ScanOne(s: Scan, k: string, v: string)
    requires '=' !in k
    ensures ScanTokens(s, [k + "=" + v]) == ScanPair(s, k, v)
  {
    ScanKeyValue(s, k, v);
    assert [k + "=" + v][1..] == [];
  }

  /** A packet count is taken for one more key of the tuple, and changes none of the others. */
  lemma ScanPackets(s: Scan, packets: Option<string>)
    ensures var t := ScanTokens(s, if packets.Some? then ["packets=" + packets.value] else []);
            && t == s.(orig := t.orig)
            && (s.inReply ==> t.orig == s.orig)
            && (forall k :: k in s.orig ==> k in t.orig && t.orig[k] == s.orig[k])
  {
    if packets.Some? {
      assert "packets=" + packets.value == "packets" + "=" + packets.value;
      ScanOne(s, "packets", packets.value);
    }
  }

  lemma ScanBytes(s: Scan, bytes: Option<nat>)
    requires GetOr0(bytes) <= U64_MAX
    requires if s.inReply then s.replyBytes.None? else s.origBytes.None?
    ensures ScanTokens(s, if bytes.Some? then ["bytes=" + Decimal(bytes.value)] else [])
            == if s.inReply then s.(replyBytes := bytes) else s.(origBytes := bytes)
  {
    if bytes.Some? {
      assert "bytes=" + Decimal(bytes.value) == "bytes" + "=" + Decimal(bytes.value);
      ScanOne(s, "bytes", Decimal(bytes.value));
      ParseDecimal(bytes.value, U64_MAX);
    }
  }

  lemma ScanCounters(s: Scan, c: Counters)
    requires BytesOf(c) <= U64_MAX
    requires if s.inReply then s.replyBytes.None? else s.origBytes.None?
    ensures var t := ScanTokens(s, CounterTokens(c));
            && t == (if s.inReply then s.(replyBytes := c.bytes) else s.(origBytes := c.bytes, orig := t.orig))
            && (forall k :: k in s.orig ==> k in t.orig && t.orig[k] == s.orig[k])
  {
    var packets := if c.packets.Some? then ["packets=" + c.packets.value] else [];
    var bytes := if c.bytes.Some? then ["bytes=" + Decimal(c.bytes.value)] else [];
    ScanConcat(s, packets, bytes);
    ScanPackets(s, c.packets);
    ScanBytes(ScanTokens(s, packets), c.bytes);
  }

  lemma ScanTuple(s: Scan, src: string, dst: string, sport: string, dport: string)
    ensures ScanTokens(s, ["src=" + src, "dst=" + dst, "sport=" + sport, "dport=" + dport])
            == ScanPair(ScanPair(ScanPair(ScanPair(s, "src", src), "dst", dst), "sport", sport), "dport", dport)
  {
    ScanFour(s, "src=" + src, "dst=" + dst, "sport=" + sport, "dport=" + dport);
    assert "src=" + src == "src" + "=" + src;
    assert "dst=" + dst == "dst" + "=" + dst;
    assert "sport=" + sport == "sport" + "=" + sport;
    assert "dport=" + dport == "dport" + "=" + dport;
    ScanKeyValue(s, "src", src);
    var s1 := ScanPair(s, "src", src);
    ScanKeyValue(s1, "dst", dst);
    var s2 := ScanPair(s1, "dst", dst);
    ScanKeyValue(s2, "sport", sport);
    ScanKeyValue(ScanPair(s2, "sport", sport), "dport", dport);
  }

  /** Nothing after the reply direction's counters changes what was gathered. */
  lemma {:induction false} ScanTail(s: Scan, tail: seq<string>)
    requires s.inReply
    requires s.replyBytes.Some? || forall t :: t in tail ==> !KeyIs(t, "bytes")
    ensures ScanTokens(s, tail) == s
    decreases |tail|
  {
    if tail == [] {
    } else {
      assert !KeyIs(tail[0], "bytes") || s.replyBytes.Some?;
      assert ScanToken(s, tail[0]) == s;
      ScanTail(s, tail[1..]);
    }
  }

  predicate Gathered(s: Scan, f: FlowLine) {
    && "src" in s.orig && s.orig["src"] == f.src
    && "dst" in s.orig && s.orig["dst"] == f.dst
    && "sport" in s.orig && s.orig["sport"] == Decimal(f.localPort)
    && "dport" in s.orig && s.orig["dport"] == Decimal(f.remotePort)
    && GetOr0(s.origBytes) == BytesOf(f.sent)
  }

  lemma ScanOriginal(f: FlowLine)
    requires BytesOf(f.sent) <= U64_MAX
    ensures var s := ScanTokens(START, OriginalTokens(f));
            Gathered(s, f) && !s.inReply && s.replyBytes.None?
  {
    var tuple := OriginalTokens(f)[..4];
    assert OriginalTokens(f) == tuple + CounterTokens(f.sent);
    ScanConcat(START, tuple, CounterTokens(f.sent));
    ScanTuple(START, f.src, f.dst, Decimal(f.localPort), Decimal(f.remotePort));
    ScanCounters(ScanTokens(START, tuple), f.sent);
  }

  lemma ScanReply(s: Scan, f: FlowLine)
    requires Gathered(s, f) && !s.inReply && s.replyBytes.None?
    requires |f.reply| == 4 && BytesOf(f.recv) <= U64_MAX
    ensures var t := ScanTokens(s, ReplyTokens(f));
            t == s.(inReply := true, replyBytes := f.recv.bytes)
  {
    var tuple := ReplyTokens(f)[..4];
    assert ReplyTokens(f) == tuple + CounterTokens(f.recv);
    ScanConcat(s, tuple, CounterTokens(f.recv));
    ScanTuple(s, f.reply[0], f.reply[1], f.reply[2], f.reply[3]);
    assert ScanTokens(s, tuple) == s.(inReply := true);
    ScanCounters(ScanTokens(s, tuple), f.recv);
  }

  lemma ScanRendered(codec: AddrText, f: FlowLine, tokens: seq<string>)
    requires Renders(codec, f, tokens)
    ensures var s := ScanTokens(START, tokens[5..]);
            Gathered(s, f) && GetOr0(s.replyBytes) == BytesOf(f.recv)
  {
    var a, b := OriginalTokens(f), ReplyTokens(f);
    ScanIgnoresNoise(START, tokens[5..]);
    ScanConcat(START, a + b, f.tail);
    ScanConcat(START, a, b);
    ScanOriginal(f);
    var s := ScanTokens(START, a);
    ScanReply(s, f);
    ScanTail(ScanTokens(s, b), f.tail);
  }

  /** Every rendering of a TCP or UDP flow parses back to exactly its tuple and counters: the
      counters are 0 when absent, and reply values never reach the original direction. */
  lemma {:induction false} ParseRendered(codec: AddrText, f: FlowLine, gaps: seq<string>, tokens: seq<string>)
    requires Renders(codec, f, tokens)
    requires |gaps| == |tokens| + 1 && Separates(gaps) && forall t :: t in tokens ==> IsToken(t)
    ensures ParseTokens(codec, SplitWhitespace(LaidOut(gaps, tokens))) ==
            Some(ParsedFlow(FlowKey(codec, f.proto, f.local, f.localPort, f.remote, f.remotePort),
                            f.proto, f.local, f.localPort, f.remote, f.remotePort,
                            BytesOf(f.sent), BytesOf(f.recv)))
  {
    SplitLaidOut(gaps, tokens);
    assert tokens[2] == tokens[..5][2] == ProtoName(f.proto);
    var rest := tokens[5..];
    ScanRendered(codec, f, tokens);
    ScanIgnoresNoise(START, rest);
    ScanIgnoresNoise(START, AfterState(f.proto, rest));
    assert Pairs(AfterState(f.proto, rest)) == Pairs(rest);
    ParseDecimal(f.localPort, U16_MAX);
    ParseDecimal(f.remotePort, U16_MAX);
  }
}
