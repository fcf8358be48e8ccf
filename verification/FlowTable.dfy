/**
 The daemon's flow table: merging conntrack lines, and one poll of crates/daemon/src/conntrack.rs.
 */
module FlowTable {
  import opened Types
  import opened Text
  import opened Conntrack
  import opened Replication

  type Seen = map<string, ParsedFlow>

  function Max(a: nat, b: nat): nat {
    if a >= b then a else b
  }

  function MergeOne(seen: Seen, f: ParsedFlow): Seen {
    if f.key in seen then
      seen[f.key := seen[f.key].(sent := Max(seen[f.key].sent, f.sent), recv := Max(seen[f.key].recv, f.recv))]
    else
      seen[f.key := f]
  }

  /** The table of one conntrack text, line after line. */
  function SeenIn(codec: AddrText, lines: seq<string>): Seen {
    if lines == [] then map[]
    else
      var before := SeenIn(codec, lines[..|lines| - 1]);
      var parsed := ParseTokens(codec, SplitWhitespace(lines[|lines| - 1]));
      if parsed.Some? then MergeOne(before, parsed.value) else before
  }

  /** `f` comes from one of the lines. */
  ghost predicate Parsed(codec: AddrText, lines: seq<string>, f: ParsedFlow) {
    exists line :: line in lines && ParseTokens(codec, SplitWhitespace(line)) == Some(f)
  }

  predicate SameTuple(f: ParsedFlow, g: ParsedFlow) {
    f == g.(sent := f.sent, recv := f.recv)
  }

  /** Every flow on a line is in the table, under counters at least as large as the line's. */
  ghost predicate Covers(seen: Seen, f: ParsedFlow) {
    f.key in seen && SameTuple(f, seen[f.key]) && f.sent <= seen[f.key].sent && f.recv <= seen[f.key].recv
  }

  /** Each table entry's counters are those of some line about the flow. */
  ghost predicate Attained(codec: AddrText, lines: seq<string>, g: ParsedFlow) {
    && (exists f :: Parsed(codec, lines, f) && f.key == g.key && f.sent == g.sent)
    && (exists f :: Parsed(codec, lines, f) && f.key == g.key && f.recv == g.recv)
  }

  lemma ParsedIsKeyed(codec: AddrText, tokens: seq<string>)
    ensures var f := ParseTokens(codec, tokens); f.Some? ==> KeyedByTuple(codec, f.value)
  {
  }

  lemma SameKeySameTuple(codec: AddrText, f: ParsedFlow, g: ParsedFlow)
    requires Faithful(codec) && KeyedByTuple(codec, f) && KeyedByTuple(codec, g) && f.key == g.key
    ensures SameTuple(f, g)
  {
    FlowKeyInjective(codec, f, g);
  }

  lemma ParsedMore(codec: AddrText, init: seq<string>, last: string, f: ParsedFlow)
    ensures Parsed(codec, init + [last], f) <==>
            Parsed(codec, init, f) || ParseTokens(codec, SplitWhitespace(last)) == Some(f)
  {
    if Parsed(codec, init, f) {
      var line :| line in init && ParseTokens(codec, SplitWhitespace(line)) == Some(f);
      assert line in init + [last];
    }
    if ParseTokens(codec, SplitWhitespace(last)) == Some(f) {
      assert last in init + [last];
    }
  }

  lemma AttainedMore(codec: AddrText, init: seq<string>, last: string, g: ParsedFlow)
    requires Attained(codec, init, g)
    ensures Attained(codec, init + [last], g)
  {
    var f :| Parsed(codec, init, f) && f.key == g.key && f.sent == g.sent;
    var h :| Parsed(codec, init, h) && h.key == g.key && h.recv == g.recv;
    ParsedMore(codec, init, last, f);
    ParsedMore(codec, init, last, h);
  }

  ghost predicate EntryOk(codec: AddrText, lines: seq<string>, k: string, g: ParsedFlow) {
    g.key == k && KeyedByTuple(codec, g) && Attained(codec, lines, g)
  }

  lemma MergedEntry(codec: AddrText, lines: seq<string>, f: ParsedFlow, g: ParsedFlow)
    requires Faithful(codec) && Parsed(codec, lines, f) && KeyedByTuple(codec, f)
    requires EntryOk(codec, lines, f.key, g)
    ensures EntryOk(codec, lines, f.key, g.(sent := Max(g.sent, f.sent), recv := Max(g.recv, f.recv)))
    ensures SameTuple(f, g)
  {
    SameKeySameTuple(codec, f, g);
    var x :| Parsed(codec, lines, x) && x.key == g.key && x.sent == g.sent;
    var y :| Parsed(codec, lines, y) && y.key == g.key && y.recv == g.recv;
    var merged := g.(sent := Max(g.sent, f.sent), recv := Max(g.recv, f.recv));
    var sender, receiver := if merged.sent == f.sent then f else x, if merged.recv == f.recv then f else y;
    assert Parsed(codec, lines, sender) && sender.key == merged.key && sender.sent == merged.sent;
    assert Parsed(codec, lines, receiver) && receiver.key == merged.key && receiver.recv == merged.recv;
  }

  lemma CoversKept(seen: Seen, f: ParsedFlow, h: ParsedFlow)
    requires f.key in seen ==> SameTuple(f, seen[f.key])
    ensures Covers(MergeOne(seen, f), f)
    ensures Covers(seen, h) ==> Covers(MergeOne(seen, f), h)
  {
  }

  lemma MergeStep(codec: AddrText, init: seq<string>, last: string, seen: Seen, f: ParsedFlow)
    requires Faithful(codec) && ParseTokens(codec, SplitWhitespace(last)) == Some(f)
    requires forall k :: k in seen ==> EntryOk(codec, init, k, seen[k])
    requires forall h :: Parsed(codec, init, h) ==> Covers(seen, h)
    ensures EntryOk(codec, init + [last], f.key, MergeOne(seen, f)[f.key])
    ensures Covers(MergeOne(seen, f), f)
    ensures forall h :: Parsed(codec, init, h) ==> Covers(MergeOne(seen, f), h)
  {
    ParsedIsKeyed(codec, SplitWhitespace(last));
    ParsedMore(codec, init, last, f);
    if f.key in seen {
      assert EntryOk(codec, init, f.key, seen[f.key]);
      AttainedMore(codec, init, last, seen[f.key]);
      MergedEntry(codec, init + [last], f, seen[f.key]);
    }
    forall h ensures Covers(MergeOne(seen, f), f) && (Covers(seen, h) ==> Covers(MergeOne(seen, f), h)) {
      CoversKept(seen, f, h);
    }
  }

  /** The merged table holds the pointwise maximum of the counters on the lines, per flow. */
  lemma {:induction false} SeenIsMaximum(codec: AddrText, lines: seq<string>)
    requires Faithful(codec)
    ensures forall k :: k in SeenIn(codec, lines) ==> EntryOk(codec, lines, k, SeenIn(codec, lines)[k])
    ensures forall f :: Parsed(codec, lines, f) ==> Covers(SeenIn(codec, lines), f)
    decreases |lines|
  {
    if lines == [] {
    } else {
      var init, last := lines[..|lines| - 1], lines[|lines| - 1];
      assert lines == init + [last];
      SeenIsMaximum(codec, init);
      var before, after := SeenIn(codec, init), SeenIn(codec, lines);
      var parsed := ParseTokens(codec, SplitWhitespace(last));
      if parsed.Some? {
        MergeStep(codec, init, last, before, parsed.value);
      }
      forall k | k in after ensures EntryOk(codec, lines, k, after[k]) {
        if parsed == None || k != parsed.value.key {
          assert EntryOk(codec, init, k, before[k]);
          AttainedMore(codec, init, last, before[k]);
        }
      }
      forall f | Parsed(codec, lines, f) ensures Covers(after, f) {
        ParsedMore(codec, init, last, f);
      }
    }
  }

  lemma CoveredEntry(codec: AddrText, lines: seq<string>, k: string, g: ParsedFlow, seen: Seen)
    requires EntryOk(codec, lines, k, g)
    requires forall f :: Parsed(codec, lines, f) ==> Covers(seen, f)
    ensures k in seen && g.sent <= seen[k].sent && g.recv <= seen[k].recv
  {
    var f :| Parsed(codec, lines, f) && f.key == g.key && f.sent == g.sent;
    var h :| Parsed(codec, lines, h) && h.key == g.key && h.recv == g.recv;
    assert Covers(seen, f) && Covers(seen, h);
  }

  lemma SeenSubsumed(codec: AddrText, a: seq<string>, b: seq<string>)
    requires Faithful(codec)
    requires forall line :: line in a ==> line in b
    ensures var s, t := SeenIn(codec, a), SeenIn(codec, b);
            forall k :: k in s ==> k in t && s[k].sent <= t[k].sent && s[k].recv <= t[k].recv && SameTuple(s[k], t[k])
  {
    SeenIsMaximum(codec, a);
    SeenIsMaximum(codec, b);
    var s, t := SeenIn(codec, a), SeenIn(codec, b);
    assert forall f :: Parsed(codec, a, f) ==> Parsed(codec, b, f);
    forall k | k in s
      ensures k in t && s[k].sent <= t[k].sent && s[k].recv <= t[k].recv && SameTuple(s[k], t[k])
    {
      CoveredEntry(codec, a, k, s[k], t);
      assert EntryOk(codec, b, k, t[k]);
      SameKeySameTuple(codec, s[k], t[k]);
    }
  }

  /** The merged table depends only on which lines there are: not on their order, and not on
      whether one is repeated. */
  lemma SeenIgnoresOrder(codec: AddrText, a: seq<string>, b: seq<string>)
    requires Faithful(codec)
    requires forall line :: line in a <==> line in b
    ensures SeenIn(codec, a) == SeenIn(codec, b)
  {
    SeenSubsumed(codec, a, b);
    SeenSubsumed(codec, b, a);
  }

  // ------------------------------------------------------------------------------- polling

  datatype Attributed = Attributed(pid: Option<nat>, name: Option<string>, exe: Option<PathBuf>)

  ghost predicate Keyed(flows: Flows) {
    forall k :: k in flows ==> flows[k].key == k
  }

  predicate CountersDiffer(conn: ConnectionInfo, f: ParsedFlow) {
    conn.bytesSent != f.sent || conn.bytesRecv != f.recv
  }

  function NewConnection(f: ParsedFlow, who: Attributed, now: int): ConnectionInfo {
    ConnectionInfo(f.key, f.proto, f.local, f.localPort, f.remote, f.remotePort, f.sent, f.recv,
                   who.pid, who.name, who.exe, now, now)
  }

  /** What a poll leaves under the key of a flow it saw. */
  function Polled(flows: Flows, f: ParsedFlow, who: string -> Attributed, now: int): ConnectionInfo {
    if f.key in flows then
      if CountersDiffer(flows[f.key], f) then
        flows[f.key].(bytesSent := f.sent, bytesRecv := f.recv, lastSeen := now)
      else flows[f.key]
    else NewConnection(f, who(f.key), now)
  }

  /** Attribution, addresses and start time of a surviving flow stay as they were. */
  predicate OnlyCountersMoved(was: ConnectionInfo, conn: ConnectionInfo) {
    conn == was.(bytesSent := conn.bytesSent, bytesRecv := conn.bytesRecv, lastSeen := conn.lastSeen)
  }

  /** An event tells the truth about how `before` became `after` under its key. */
  predicate Announces(event: Event, before: Flows, after: Flows) {
    match event
    case ConnectionOpened(conn) => conn.key !in before && conn.key in after && after[conn.key] == conn
    case ConnectionUpdated(conn) =>
      && conn.key in before && conn.key in after && after[conn.key] == conn && before[conn.key] != conn
      && OnlyCountersMoved(before[conn.key], conn)
    case ConnectionClosed(key) => key in before && key !in after
    case _ => false
  }

  /** A batch announces a change of the table: only true events, at most one per key, and one for
      every key whose entry changed. Nothing is said about their order. */
  ghost predicate Publication(before: Flows, after: Flows, batch: seq<Event>) {
    && (forall e :: e in batch ==> Announces(e, before, after))
    && (forall e :: multiset(batch)[e] <= 1)
    && (forall e, f :: e in batch && f in batch && KeyOfEvent(e) == KeyOfEvent(f) ==> e == f)
    && (forall k :: Get(before, k) != Get(after, k) ==> exists e :: e in batch && KeyOfEvent(e) == Some(k))
  }

  /** Closes before all reports. */
  predicate ClosesFirst(batch: seq<Event>) {
    forall i, j :: 0 <= i < j < |batch| && batch[j].ConnectionClosed? ==> batch[i].ConnectionClosed?
  }

  /** What one poll publishes. */
  ghost predicate PollBatch(before: Flows, after: Flows, batch: seq<Event>) {
    Publication(before, after, batch) && ClosesFirst(batch)
  }

  predicate OnlyCloses(batch: seq<Event>) {
    forall e :: e in batch ==> e.ConnectionClosed?
  }

  predicate NoCloses(batch: seq<Event>) {
    forall e :: e in batch ==> !e.ConnectionClosed?
  }

  lemma PublicationExtends(before: Flows, mid: Flows, batch: seq<Event>, event: Event)
    requires Publication(before, mid, batch)
    requires forall e :: e in batch ==> KeyOfEvent(e) != KeyOfEvent(event)
    requires Announces(event, before, ApplyFlow(mid, event))
    requires Keyed(before) && Keyed(mid)
    ensures Publication(before, ApplyFlow(mid, event), batch + [event])
  {
    var after, more := ApplyFlow(mid, event), batch + [event];
    var key := KeyOfEvent(event).value;
    forall e | e in more ensures Announces(e, before, after) {
      if e in batch {
        assert Announces(e, before, mid) && KeyOfEvent(e) != Some(key);
      }
    }
    assert event !in batch;
    forall e ensures multiset(more)[e] <= 1 {
      assert multiset(more) == multiset(batch) + multiset{event};
    }
    forall k | Get(before, k) != Get(after, k)
      ensures exists e :: e in more && KeyOfEvent(e) == Some(k)
    {
      if k == key {
        assert event in more;
      } else {
        assert Get(after, k) == Get(mid, k);
        var e :| e in batch && KeyOfEvent(e) == Some(k);
        assert e in more;
      }
    }
  }

  lemma AnnouncesFrom(start: Flows, mid: Flows, after: Flows, event: Event)
    requires Announces(event, mid, after)
    requires KeyOfEvent(event).Some? && Get(start, KeyOfEvent(event).value) == Get(mid, KeyOfEvent(event).value)
    ensures Announces(event, start, after)
  {
    var k := KeyOfEvent(event).value;
    assert k in start <==> Get(start, k).Some?;
    assert k in mid <==> Get(mid, k).Some?;
  }

  /** No event is about one of these keys. */
  ghost predicate Avoids(batch: seq<Event>, keys: set<string>) {
    forall e :: e in batch ==> KeyOfEvent(e).Some? && KeyOfEvent(e).value !in keys
  }

  /** The table while a poll reports the flows it saw: those in `todo` are still to come. */
  function Progress(start: Flows, seen: Seen, todo: set<string>, who: string -> Attributed, now: int): Flows
    requires forall k :: k in seen ==> seen[k].key == k
  {
    map k | k in seen && (k in todo ==> k in start) ::
      if k in todo then start[k] else Polled(start, seen[k], who, now)
  }

  lemma ProgressStart(start: Flows, seen: Seen, who: string -> Attributed, now: int)
    requires forall k :: k in seen ==> seen[k].key == k
    ensures start - (start.Keys - seen.Keys) == Progress(start, seen, seen.Keys, who, now)
  {
  }

  lemma ProgressStep(start: Flows, seen: Seen, todo: set<string>, who: string -> Attributed,
                     now: int, key: string)
    requires forall k :: k in seen ==> seen[k].key == k
    requires key in todo && key in seen
    ensures var mid := Progress(start, seen, todo, who, now);
            && Get(start, key) == Get(mid, key)
            && Progress(start, seen, todo - {key}, who, now) == mid[key := Polled(mid, seen[key], who, now)]
  {
  }

  lemma NewsExtends(start: Flows, mid: Flows, after: Flows, batch: seq<Event>, news: seq<Event>,
                    todo: set<string>, key: string)
    requires Keyed(start) && Keyed(mid) && Publication(start, mid, batch)
    requires Get(start, key) == Get(mid, key)
    requires key in todo && Avoids(batch, todo)
    requires |news| <= 1 && (news == [] ==> after == mid)
    requires news != [] ==> KeyOfEvent(news[0]) == Some(key) && after == ApplyFlow(mid, news[0])
                            && Announces(news[0], mid, after)
    ensures Publication(start, after, batch + news)
    ensures Avoids(batch + news, todo - {key})
  {
    if news == [] {
      assert batch + news == batch;
    } else {
      AnnouncesFrom(start, mid, after, news[0]);
      PublicationExtends(start, mid, batch, news[0]);
      assert batch + news == batch + [news[0]];
    }
  }

  /** Where a poll stands while it closes the flows it did not see: those in `closed` are to come. */
  ghost predicate Closing(start: Flows, seen: Seen, closed: set<string>, flows: Flows, batch: seq<Event>) {
    && closed <= flows.Keys && closed !! seen.Keys
    && flows == start - (start.Keys - seen.Keys - closed) && Keyed(flows)
    && Publication(start, flows, batch) && OnlyCloses(batch)
    && Avoids(batch, seen.Keys) && Avoids(batch, closed)
  }

  lemma ClosingStep(start: Flows, seen: Seen, closed: set<string>, flows: Flows, batch: seq<Event>,
                    key: string)
    requires Keyed(start) && Closing(start, seen, closed, flows, batch) && key in closed
    ensures Closing(start, seen, closed - {key}, flows - {key}, batch + [ConnectionClosed(key)])
  {
    PublicationExtends(start, flows, batch, ConnectionClosed(key));
    assert flows - {key} == start - (start.Keys - seen.Keys - (closed - {key}));
  }

  /** Where a poll stands while it reports the flows it saw. */
  ghost predicate Reporting(start: Flows, seen: Seen, todo: set<string>, who: string -> Attributed, now: int,
                            flows: Flows, closings: seq<Event>, reports: seq<Event>)
    requires forall k :: k in seen ==> seen[k].key == k
  {
    && todo <= seen.Keys
    && flows == Progress(start, seen, todo, who, now) && Keyed(flows)
    && Publication(start, flows, closings + reports) && Avoids(closings + reports, todo)
    && NoCloses(reports)
  }

  lemma ReportingStarts(start: Flows, seen: Seen, who: string -> Attributed, now: int, flows: Flows,
                        closings: seq<Event>)
    requires forall k :: k in seen ==> seen[k].key == k
    requires Closing(start, seen, {}, flows, closings)
    ensures Reporting(start, seen, seen.Keys, who, now, flows, closings, [])
  {
    ProgressStart(start, seen, who, now);
    assert start.Keys - seen.Keys - {} == start.Keys - seen.Keys;
    assert closings + [] == closings;
  }

  /** `news` is what one flow's report adds. */
  ghost predicate Reported(mid: Flows, after: Flows, news: seq<Event>, key: string) {
    && |news| <= 1 && (news == [] ==> after == mid)
    && (news != [] ==> KeyOfEvent(news[0]) == Some(key) && after == ApplyFlow(mid, news[0])
                       && Announces(news[0], mid, after) && !news[0].ConnectionClosed?)
  }

  lemma ReportingStep(start: Flows, seen: Seen, todo: set<string>, who: string -> Attributed,
                      now: int, mid: Flows, after: Flows, closings: seq<Event>, reports: seq<Event>,
                      news: seq<Event>, key: string)
    requires forall k :: k in seen ==> seen[k].key == k
    requires Keyed(start) && Reporting(start, seen, todo, who, now, mid, closings, reports) && key in todo
    requires after == mid[key := Polled(mid, seen[key], who, now)] && Keyed(after)
    requires Reported(mid, after, news, key)
    ensures Reporting(start, seen, todo - {key}, who, now, after, closings, reports + news)
  {
    ProgressStep(start, seen, todo, who, now, key);
    NewsExtends(start, mid, after, closings + reports, news, todo, key);
    assert closings + (reports + news) == closings + reports + news;
  }

  /** What a poll leaves under the key of a flow it saw, field by field, and what it publishes. */
  ghost predicate Recorded(before: Flows, after: Flows, batch: seq<Event>, f: ParsedFlow, who: Attributed, now: int) {
    && f.key in after
    && var conn := after[f.key];
       && conn.bytesSent == f.sent && conn.bytesRecv == f.recv
       && if f.key !in before then
            && conn.key == f.key && conn.protocol == f.proto
            && conn.localAddr == f.local && conn.localPort == f.localPort
            && conn.remoteAddr == f.remote && conn.remotePort == f.remotePort
            && conn.pid == who.pid && conn.processName == who.name && conn.exe == who.exe
            && conn.started == now && conn.lastSeen == now
            && ConnectionOpened(conn) in batch
          else if before[f.key].bytesSent == f.sent && before[f.key].bytesRecv == f.recv then
            conn == before[f.key] && forall e :: e in batch ==> KeyOfEvent(e) != Some(f.key)
          else
            && conn == before[f.key].(bytesSent := f.sent, bytesRecv := f.recv, lastSeen := now)
            && ConnectionUpdated(conn) in batch
  }

  lemma PolledIsRecorded(before: Flows, after: Flows, batch: seq<Event>, f: ParsedFlow, who: string -> Attributed,
                         now: int)
    requires Publication(before, after, batch) && Keyed(before) && Keyed(after)
    requires Get(after, f.key) == Some(Polled(before, f, who, now))
    ensures Recorded(before, after, batch, f, who(f.key), now)
  {
    if Get(before, f.key) != Get(after, f.key) {
      var e :| e in batch && KeyOfEvent(e) == Some(f.key);
      assert Announces(e, before, after);
    } else {
      forall e | e in batch ensures KeyOfEvent(e) != Some(f.key) {
        assert Announces(e, before, after);
      }
    }
  }

  lemma AllRecorded(start: Flows, seen: Seen, who: string -> Attributed, now: int, flows: Flows, closings: seq<Event>,
                    reports: seq<Event>)
    requires forall k :: k in seen ==> seen[k].key == k
    requires Keyed(start) && Reporting(start, seen, {}, who, now, flows, closings, reports)
    ensures forall k :: k in seen ==> Recorded(start, flows, closings + reports, seen[k], who(k), now)
  {
    forall k | k in seen ensures Recorded(start, flows, closings + reports, seen[k], who(k), now) {
      assert Get(flows, k) == Some(Polled(start, seen[k], who, now));
      PolledIsRecorded(start, flows, closings + reports, seen[k], who, now);
    }
  }

  class Daemon {
    /** `state.connections`. */
    var flows: Flows
    /** Everything broadcast so far. */
    var published: seq<Event>

    constructor ()
      ensures flows == map[] && published == []
    {
      flows, published := map[], [];
    }

    /** `poll_once`. `text` is the conntrack table, absent when it cannot be read; `who` is what
        attribution says about a new flow. */
    method PollOnce(codec: AddrText, text: Option<seq<string>>, who: string -> Attributed, now: int)
      returns (ghost batch: seq<Event>)
      requires Keyed(flows)
      modifies this
      ensures published == old(published) + batch
      ensures PollBatch(old(flows), flows, batch) && Keyed(flows)
      ensures text == None ==> flows == old(flows) && batch == []
      ensures text.Some? ==>
                var seen := SeenIn(codec, text.value);
                && flows.Keys == seen.Keys
                && forall k :: k in seen ==> Recorded(old(flows), flows, batch, seen[k], who(k), now)
    {
      batch := [];
      if text == None {
        return;
      }
      var seen := ReadTable(codec, text.value);
      ghost var closings := CloseMissing(seen);
      ReportingStarts(old(flows), seen, who, now, flows, closings);
      ghost var reports := ReportSeen(seen, who, now, old(flows), closings);
      batch := closings + reports;
    }

    method ReadTable(codec: AddrText, lines: seq<string>) returns (seen: Seen)
      ensures seen == SeenIn(codec, lines)
      ensures forall k :: k in seen ==> seen[k].key == k
    {
      seen := map[];
      for i := 0 to |lines|
        invariant seen == SeenIn(codec, lines[..i])
        invariant forall k :: k in seen ==> seen[k].key == k
      {
        assert lines[..i + 1][..i] == lines[..i];
        var parsed := ParseLine(codec, lines[i]);
        if parsed.Some? {
          seen := MergeOne(seen, parsed.value);
        }
      }
      assert lines[..|lines|] == lines;
    }

    method CloseMissing(seen: Seen) returns (ghost batch: seq<Event>)
      requires Keyed(flows)
      modifies this
      ensures published == old(published) + batch
      ensures Closing(old(flows), seen, {}, flows, batch)
    {
      batch := [];
      var closed := flows.Keys - seen.Keys;
      while closed != {}
        invariant published == old(published) + batch
        invariant Closing(old(flows), seen, closed, flows, batch)
        decreases closed
      {
        var key :| key in closed;
        ClosingStep(old(flows), seen, closed, flows, batch, key);
        batch := batch + [ConnectionClosed(key)];
        flows := flows - {key};
        published := published + [ConnectionClosed(key)];
        closed := closed - {key};
      }
    }

    method ReportSeen(seen: Seen, who: string -> Attributed, now: int, ghost start: Flows, ghost closings: seq<Event>)
      returns (ghost reports: seq<Event>)
      requires forall k :: k in seen ==> seen[k].key == k
      requires Keyed(start) && Reporting(start, seen, seen.Keys, who, now, flows, closings, [])
      modifies this
      ensures published == old(published) + reports
      ensures Reporting(start, seen, {}, who, now, flows, closings, reports)
      ensures forall k :: k in seen ==> Recorded(start, flows, closings + reports, seen[k], who(k), now)
    {
      reports := [];
      var todo := seen.Keys;
      while todo != {}
        invariant published == old(published) + reports
        invariant Reporting(start, seen, todo, who, now, flows, closings, reports)
        decreases todo
      {
        var key :| key in todo;
        ghost var mid := flows;
        ghost var news := ReportFlow(seen[key], who, now);
        ReportingStep(start, seen, todo, who, now, mid, flows, closings, reports, news, key);
        reports := reports + news;
        todo := todo - {key};
      }
      AllRecorded(start, seen, who, now, flows, closings, reports);
    }

    method ReportFlow(f: ParsedFlow, who: string -> Attributed, now: int) returns (ghost news: seq<Event>)
      requires Keyed(flows)
      modifies this
      ensures flows == old(flows)[f.key := Polled(old(flows), f, who, now)] && Keyed(flows)
      ensures published == old(published) + news
      ensures Reported(old(flows), flows, news, f.key)
    {
      news := [];
      if f.key in flows {
        if CountersDiffer(flows[f.key], f) {
          var conn := flows[f.key].(bytesSent := f.sent, bytesRecv := f.recv, lastSeen := now);
          flows := flows[f.key := conn];
          news := [ConnectionUpdated(conn)];
          published := published + [ConnectionUpdated(conn)];
        }
      } else {
        var info := NewConnection(f, who(f.key), now);
        flows := flows[f.key := info];
        news := [ConnectionOpened(info)];
        published := published + [ConnectionOpened(info)];
      }
    }
  }
}
