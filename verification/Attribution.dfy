/**
 Flow to process attribution (crates/daemon/src/attrib.rs): the inode cache against /proc.

 `Proc` is what /proc shows during one lookup; it may be any other at the next one.
 */
module Attribution {
  import opened Types
  import opened Text

  /** The texts of the socket tables (absent if unreadable), the names listed in the root, and the
      link targets in each readable <name>/fd directory. */
  datatype Proc = Proc(
    tcp: Option<seq<string>>,
    tcp6: Option<seq<string>>,
    udp: Option<seq<string>>,
    udp6: Option<seq<string>>,
    names: seq<string>,
    links: map<string, seq<string>>)

  /** (local port, remote port, inode) of a socket row. */
  function ParseRow(line: string): Option<(nat, nat, nat)> {
    var fields := SplitWhitespace(line);
    if |fields| < 10 || fields[0] == [] || fields[0][|fields[0]| - 1] != ':' then None
    else
      var localPort := ParseUnsigned(AfterLast(fields[1], ':'), 16, U16_MAX);
      var remotePort := ParseUnsigned(AfterLast(fields[2], ':'), 16, U16_MAX);
      var inode := ParseUnsigned(fields[9], 10, U64_MAX);
      if localPort.None? || remotePort.None? || inode.None? || inode.value == 0 then None
      else Some((localPort.value, remotePort.value, inode.value))
  }

  const SOCKET: string := "socket:["

  /** The inode in a link target of the form socket:[inode]. */
  function SocketInode(target: string): Option<nat> {
    if SOCKET <= target && |target| > |SOCKET| && target[|target| - 1] == ']' then
      ParseUnsigned(target[|SOCKET|..|target| - 1], 10, U64_MAX)
    else None
  }

  /** The tables searched for a protocol, in order. */
  function Tables(proc: Proc, proto: Protocol): seq<Option<seq<string>>> {
    match proto
    case Tcp => [proc.tcp, proc.tcp6]
    case Udp => [proc.udp, proc.udp6]
    case Other => []
  }

  function Rows(tables: seq<Option<seq<string>>>): seq<string> {
    if tables == [] then []
    else Rows(tables[..|tables| - 1]) + (if tables[|tables| - 1].Some? then tables[|tables| - 1].value else [])
  }

  predicate Matches(line: string, port: nat) {
    ParseRow(line).Some? && ParseRow(line).value.0 == port
  }

  function InodeOf(line: string): nat
    requires ParseRow(line).Some?
  {
    ParseRow(line).value.2
  }

  // ------------------------------------------------------- rows and links as the kernel writes them

  /** A row: its number, the two addresses with their ports in hexadecimal, six more columns, the
      inode, and any further columns. */
  datatype Row = Row(
    number: string,
    localAddr: string,
    localPad: nat,
    localPort: nat,
    remoteAddr: string,
    remotePad: nat,
    remotePort: nat,
    middle: seq<string>,
    inode: nat,
    tail: seq<string>)

  function PortText(addr: string, pad: nat, port: nat): string {
    addr + ":" + (Zeros(pad) + Hex(port))
  }

  function RowFields(r: Row): seq<string> {
    [r.number + ":", PortText(r.localAddr, r.localPad, r.localPort), PortText(r.remoteAddr, r.remotePad, r.remotePort)]
    + r.middle + [Decimal(r.inode)] + r.tail
  }

  /** `line` is laid out from the fields of `r`. */
  ghost predicate RendersRow(r: Row, gaps: seq<string>, line: string) {
    && |r.middle| == 6 && r.localPort <= U16_MAX && r.remotePort <= U16_MAX && r.inode <= U64_MAX
    && (forall t :: t in RowFields(r) ==> IsToken(t))
    && |gaps| == |RowFields(r)| + 1 && Separates(gaps)
    && line == LaidOut(gaps, RowFields(r))
  }

  lemma ParsePort(addr: string, pad: nat, port: nat)
    requires port <= U16_MAX
    ensures ParseUnsigned(AfterLast(PortText(addr, pad, port), ':'), 16, U16_MAX) == Some(port)
  {
    HexShape(port);
    AfterLastAt(addr, ':', Zeros(pad) + Hex(port));
    ParsePaddedHex(pad, port, U16_MAX);
  }

  /** Every row is read as its local port, its remote port and its inode; one without an inode is
      skipped. */
  lemma ParseRendersRow(r: Row, gaps: seq<string>, line: string)
    requires RendersRow(r, gaps, line)
    ensures ParseRow(line) == if r.inode == 0 then None else Some((r.localPort, r.remotePort, r.inode))
  {
    var fields := RowFields(r);
    SplitLaidOut(gaps, fields);
    ParsePort(r.localAddr, r.localPad, r.localPort);
    ParsePort(r.remoteAddr, r.remotePad, r.remotePort);
    ParseDecimal(r.inode, U64_MAX);
    assert fields[9] == Decimal(r.inode);
  }

  predicate EndsInColon(s: string) {
    s != [] && s[|s| - 1] == ':'
  }

  /** Nor is the header line a row, whose first word ends without a colon, nor a line of fewer than ten
      words. */
  lemma HeaderIsNoRow(gaps: seq<string>, fields: seq<string>)
    requires |gaps| == |fields| + 1 && Separates(gaps) && forall t :: t in fields ==> IsToken(t)
    requires |fields| < 10 || !EndsInColon(fields[0])
    ensures ParseRow(LaidOut(gaps, fields)) == None
  {
    SplitLaidOut(gaps, fields);
  }

  /** A link is to the socket `n` exactly if it is written socket:[n]. */
  lemma SocketInodeIff(target: string, n: nat)
    ensures SocketInode(target) == Some(n) <==>
            exists d :: target == "socket:[" + d + "]" && ParseUnsigned(d, 10, U64_MAX) == Some(n)
    ensures n <= U64_MAX && target == "socket:[" + Decimal(n) + "]" ==> SocketInode(target) == Some(n)
  {
    var k := |SOCKET|;
    if SOCKET <= target && |target| > k && target[|target| - 1] == ']' {
      assert target == "socket:[" + target[k..|target| - 1] + "]";
    }
    if d :| target == "socket:[" + d + "]" && ParseUnsigned(d, 10, U64_MAX) == Some(n) {
      assert target[k..|target| - 1] == d;
    }
    if n <= U64_MAX && target == "socket:[" + Decimal(n) + "]" {
      ParseDecimal(n, U64_MAX);
      assert target[k..|target| - 1] == Decimal(n);
    }
  }

  function Lines(text: Option<seq<string>>): seq<string> {
    if text.Some? then text.value else []
  }

  /** The rows searched for a protocol: its IPv4 table before its IPv6 table, unreadable ones skipped. */
  lemma RowsInOrder(proc: Proc)
    ensures Rows(Tables(proc, Tcp)) == Lines(proc.tcp) + Lines(proc.tcp6)
    ensures Rows(Tables(proc, Udp)) == Lines(proc.udp) + Lines(proc.udp6)
    ensures Rows(Tables(proc, Other)) == []
  {
    TwoTables(proc.tcp, proc.tcp6);
    TwoTables(proc.udp, proc.udp6);
  }

  lemma TwoTables(a: Option<seq<string>>, b: Option<seq<string>>)
    ensures Rows([a, b]) == Lines(a) + Lines(b)
  {
    assert [a, b][..1] == [a] && [a][..0] == [];
    assert Rows([a]) == Lines(a);
  }

  /** The first row for the port, over all tables of the protocol. */
  ghost predicate FirstMatch(rows: seq<string>, port: nat, i: nat) {
    i < |rows| && Matches(rows[i], port) && forall j :: 0 <= j < i ==> !Matches(rows[j], port)
  }

  ghost predicate NoMatch(rows: seq<string>, port: nat) {
    forall j :: 0 <= j < |rows| ==> !Matches(rows[j], port)
  }

  /** The process directory `name` holds a link to the socket. */
  ghost predicate LinksSocket(proc: Proc, name: string, inode: nat) {
    name in proc.links && exists t :: t in proc.links[name] && SocketInode(t) == Some(inode)
  }

  /** The process owns the socket now: its directory, listed or not, links it. The id of a thread
      has such a directory too, which is not listed. */
  ghost predicate Owns(proc: Proc, pid: nat, inode: nat) {
    LinksSocket(proc, Decimal(pid), inode)
  }

  /** No listed process owns the socket. */
  ghost predicate Unowned(proc: Proc, inode: nat) {
    forall pid: nat :: pid <= U32_MAX && Decimal(pid) in proc.names ==> !Owns(proc, pid, inode)
  }

  /** Process directories are listed under their pid in plain decimal. */
  ghost predicate Canonical(proc: Proc) {
    forall n, pid :: n in proc.names && ParseUnsigned(n, 10, U32_MAX) == Some(pid) ==> n == Decimal(pid)
  }

  ghost predicate SoundMap(proc: Proc, names: seq<string>, m: map<nat, nat>) {
    forall inode :: inode in m ==>
      exists n :: n in names && ParseUnsigned(n, 10, U32_MAX) == Some(m[inode]) && LinksSocket(proc, n, inode)
  }

  ghost predicate CompleteMap(proc: Proc, names: seq<string>, m: map<nat, nat>) {
    forall n, inode :: n in names && ParseUnsigned(n, 10, U32_MAX).Some? && LinksSocket(proc, n, inode) ==> inode in m
  }

  class Attributor {
    var inodeToPid: map<nat, nat>

    constructor ()
      ensures inodeToPid == map[]
    {
      inodeToPid := map[];
    }

    method Refresh(proc: Proc)
      modifies this
      ensures SoundMap(proc, proc.names, inodeToPid) && CompleteMap(proc, proc.names, inodeToPid)
    {
      inodeToPid := ScanProcFds(proc);
    }

    /** `lookup`. Nothing is assumed of the cache: it may stem from any history. */
    method Lookup(proc: Proc, proto: Protocol, port: nat) returns (pid: Option<nat>)
      requires Canonical(proc)
      modifies this
      ensures pid.Some? ==>
                exists inode: nat :: FirstSocket(Rows(Tables(proc, proto)), port, inode) && Owns(proc, pid.value, inode)
      ensures pid.None? ==>
                || NoMatch(Rows(Tables(proc, proto)), port)
                || (exists inode: nat :: FirstSocket(Rows(Tables(proc, proto)), port, inode) && Unowned(proc, inode))
    {
      var row := FindSocketRow(proc, proto, port);
      if row == None {
        return None;
      }
      FirstRowHasSocket(Rows(Tables(proc, proto)), port, row.value);
      var inode := InodeOf(row.value);
      if inode in inodeToPid {
        var owns := PidOwnsInode(proc, inodeToPid[inode], inode);
        if owns {
          return Some(inodeToPid[inode]);
        }
      }
      Refresh(proc);
      RefreshedMapDecides(proc, inodeToPid, inode);
      pid := if inode in inodeToPid then Some(inodeToPid[inode]) else None;
    }
  }

  /** A fresh scan holds an inode exactly if some listed process owns it, under one that does. */
  lemma RefreshedMapDecides(proc: Proc, m: map<nat, nat>, inode: nat)
    requires Canonical(proc) && SoundMap(proc, proc.names, m) && CompleteMap(proc, proc.names, m)
    ensures inode in m ==> Decimal(m[inode]) in proc.names && Owns(proc, m[inode], inode)
    ensures inode !in m ==> Unowned(proc, inode)
  {
    if inode in m {
      var n :| n in proc.names && ParseUnsigned(n, 10, U32_MAX) == Some(m[inode]) && LinksSocket(proc, n, inode);
      assert n == Decimal(m[inode]);
    } else {
      forall p: nat | p <= U32_MAX && Decimal(p) in proc.names ensures !Owns(proc, p, inode) {
        ParseDecimal(p, U32_MAX);
      }
    }
  }

  /** `row` is the first row with the port. */
  ghost predicate IsFirst(rows: seq<string>, port: nat, row: string) {
    exists i: nat :: FirstMatch(rows, port, i) && rows[i] == row
  }

  lemma FirstRowHasSocket(rows: seq<string>, port: nat, row: string)
    requires IsFirst(rows, port, row)
    ensures ParseRow(row).Some? && FirstSocket(rows, port, InodeOf(row))
  {
  }

  /** The first matching row is of the socket with this inode. */
  ghost predicate FirstSocket(rows: seq<string>, port: nat, inode: nat) {
    exists i: nat :: FirstMatch(rows, port, i) && InodeOf(rows[i]) == inode
  }

  /** If no row before it has its local port, a rendered row decides which socket is looked for. */
  lemma RenderedRowDecides(rows: seq<string>, i: nat, r: Row, gaps: seq<string>, inode: nat)
    requires i < |rows| && RendersRow(r, gaps, rows[i]) && r.inode > 0
    requires forall j :: 0 <= j < i ==> !Matches(rows[j], r.localPort)
    ensures !NoMatch(rows, r.localPort) && (FirstSocket(rows, r.localPort, inode) <==> inode == r.inode)
  {
    ParseRendersRow(r, gaps, rows[i]);
    assert FirstMatch(rows, r.localPort, i);
  }

  /** A lookup for the local port of a rendered row, the first with that port. */
  method LookupRendered(a: Attributor, proc: Proc, proto: Protocol, port: nat, ghost i: nat, ghost r: Row,
                        ghost gaps: seq<string>)
    returns (pid: Option<nat>)
    requires Canonical(proc) && i < |Rows(Tables(proc, proto))| && r.localPort == port && r.inode > 0
    requires RendersRow(r, gaps, Rows(Tables(proc, proto))[i])
    requires forall j :: 0 <= j < i ==> !Matches(Rows(Tables(proc, proto))[j], port)
    modifies a
    ensures pid.Some? ==> Owns(proc, pid.value, r.inode)
    ensures pid.None? ==> Unowned(proc, r.inode)
  {
    pid := a.Lookup(proc, proto, port);
    ghost var rows := Rows(Tables(proc, proto));
    RenderedRowDecides(rows, i, r, gaps, r.inode);
    forall inode: nat ensures FirstSocket(rows, port, inode) <==> inode == r.inode {
      RenderedRowDecides(rows, i, r, gaps, inode);
    }
    if pid.Some? {
      ghost var inode: nat :| FirstSocket(rows, port, inode) && Owns(proc, pid.value, inode);
    } else {
      ghost var inode: nat :| FirstSocket(rows, port, inode) && Unowned(proc, inode);
    }
  }

  /** `find_socket_inode`, which looks no further than the first row with the port. */
  method FindSocketRow(proc: Proc, proto: Protocol, port: nat) returns (row: Option<string>)
    ensures row.None? ==> NoMatch(Rows(Tables(proc, proto)), port)
    ensures row.Some? ==> IsFirst(Rows(Tables(proc, proto)), port, row.value)
  {
    var tables := Tables(proc, proto);
    for f := 0 to |tables|
      invariant NoMatch(Rows(tables[..f]), port)
    {
      OneMoreTable(tables, f);
      if tables[f].Some? {
        row := SearchTable(Rows(tables[..f]), tables[f].value, port);
        if row.Some? {
          FirstExtends(tables, f + 1, port, row.value);
          return;
        }
      }
    }
    assert tables[..|tables|] == tables;
    row := None;
  }

  lemma OneMoreTable(tables: seq<Option<seq<string>>>, f: nat)
    requires f < |tables|
    ensures Rows(tables[..f + 1]) == Rows(tables[..f]) + if tables[f].Some? then tables[f].value else []
  {
    assert tables[..f + 1][..f] == tables[..f];
  }

  /** The line loop over one table; `before` are the rows of the tables already searched. */
  method SearchTable(ghost before: seq<string>, lines: seq<string>, port: nat) returns (row: Option<string>)
    requires NoMatch(before, port)
    ensures row.None? ==> NoMatch(before + lines, port)
    ensures row.Some? ==> IsFirst(before + lines, port, row.value)
  {
    for i := 0 to |lines|
      invariant NoMatch(before + lines[..i], port)
    {
      if Matches(lines[i], port) {
        ghost var all := before + lines;
        assert all[|before| + i] == lines[i];
        assert forall j :: 0 <= j < |before| + i ==> all[j] == (before + lines[..i])[j];
        assert FirstMatch(all, port, |before| + i);
        return Some(lines[i]);
      }
      assert before + lines[..i + 1] == before + lines[..i] + [lines[i]];
    }
    assert lines[..|lines|] == lines;
    row := None;
  }

  lemma {:induction false} RowsPrefix(tables: seq<Option<seq<string>>>, f: nat)
    requires f <= |tables|
    ensures Rows(tables[..f]) <= Rows(tables)
    decreases |tables|
  {
    if f < |tables| {
      RowsPrefix(tables[..|tables| - 1], f);
      assert tables[..|tables| - 1][..f] == tables[..f];
    } else {
      assert tables[..f] == tables;
    }
  }

  lemma FirstExtends(tables: seq<Option<seq<string>>>, f: nat, port: nat, row: string)
    requires f <= |tables| && IsFirst(Rows(tables[..f]), port, row)
    ensures IsFirst(Rows(tables), port, row)
  {
    RowsPrefix(tables, f);
    var i: nat :| FirstMatch(Rows(tables[..f]), port, i) && Rows(tables[..f])[i] == row;
    assert FirstMatch(Rows(tables), port, i);
  }

  method ScanProcFds(proc: Proc) returns (m: map<nat, nat>)
    ensures SoundMap(proc, proc.names, m) && CompleteMap(proc, proc.names, m)
  {
    m := map[];
    for i := 0 to |proc.names|
      invariant SoundMap(proc, proc.names[..i], m) && CompleteMap(proc, proc.names[..i], m)
    {
      var name := proc.names[i];
      assert proc.names[..i + 1] == proc.names[..i] + [name];
      var pid := ParseUnsigned(name, 10, U32_MAX);
      if pid.Some? {
        ghost var before := m;
        m := CollectPidSockets(proc, name, pid.value, m);
        CollectedOne(proc, proc.names[..i], name, pid.value, before, m);
      }
    }
    assert proc.names[..|proc.names|] == proc.names;
  }

  ghost predicate Collected(proc: Proc, name: string, pid: nat, before: map<nat, nat>, m: map<nat, nat>) {
    && (forall inode :: inode in m <==> inode in before || LinksSocket(proc, name, inode))
    && (forall inode :: inode in m ==> m[inode] == if LinksSocket(proc, name, inode) then pid else before[inode])
  }

  lemma CollectedOne(proc: Proc, names: seq<string>, name: string, pid: nat, before: map<nat, nat>,
                     m: map<nat, nat>)
    requires ParseUnsigned(name, 10, U32_MAX) == Some(pid) && Collected(proc, name, pid, before, m)
    requires SoundMap(proc, names, before) && CompleteMap(proc, names, before)
    ensures SoundMap(proc, names + [name], m) && CompleteMap(proc, names + [name], m)
  {
    forall inode | inode in m
      ensures exists n :: n in names + [name] && ParseUnsigned(n, 10, U32_MAX) == Some(m[inode])
                          && LinksSocket(proc, n, inode)
    {
      if LinksSocket(proc, name, inode) {
        assert name in names + [name];
      } else {
        var n :| n in names && ParseUnsigned(n, 10, U32_MAX) == Some(before[inode]) && LinksSocket(proc, n, inode);
        assert n in names + [name];
      }
    }
  }

  method CollectPidSockets(proc: Proc, name: string, pid: nat, before: map<nat, nat>) returns (m: map<nat, nat>)
    ensures Collected(proc, name, pid, before, m)
  {
    m := before;
    if name !in proc.links {
      return;
    }
    var links := proc.links[name];
    for i := 0 to |links|
      invariant forall inode :: inode in m <==> inode in before || LinkedBy(links[..i], inode)
      invariant forall inode :: inode in m ==> m[inode] == if LinkedBy(links[..i], inode) then pid else before[inode]
    {
      LinkedByOneMore(links, i);
      var inode := SocketInode(links[i]);
      if inode.Some? {
        m := m[inode.value := pid];
      }
    }
    assert links[..|links|] == links;
    assert forall inode :: LinkedBy(links, inode) <==> LinksSocket(proc, name, inode);
  }

  ghost predicate LinkedBy(links: seq<string>, inode: nat) {
    exists t :: t in links && SocketInode(t) == Some(inode)
  }

  lemma LinkedByOneMore(links: seq<string>, i: nat)
    requires i < |links|
    ensures forall inode: nat :: LinkedBy(links[..i + 1], inode) <==>
              LinkedBy(links[..i], inode) || SocketInode(links[i]) == Some(inode)
  {
    assert links[..i + 1] == links[..i] + [links[i]];
    forall inode: nat | LinkedBy(links[..i], inode) || SocketInode(links[i]) == Some(inode)
      ensures LinkedBy(links[..i + 1], inode)
    {
      if LinkedBy(links[..i], inode) {
        var t :| t in links[..i] && SocketInode(t) == Some(inode);
        assert t in links[..i + 1];
      } else {
        assert links[i] in links[..i + 1];
      }
    }
  }

  /** Whether the pid's fd directory holds a link to the inode. */
  method PidOwnsInode(proc: Proc, pid: nat, inode: nat) returns (owns: bool)
    ensures owns <==> Owns(proc, pid, inode)
  {
    var name := Decimal(pid);
    if name !in proc.links {
      return false;
    }
    var links := proc.links[name];
    for i := 0 to |links|
      invariant forall j :: 0 <= j < i ==> SocketInode(links[j]) != Some(inode)
    {
      if SocketInode(links[i]) == Some(inode) {
        return true;
      }
    }
    owns := false;
  }
}
