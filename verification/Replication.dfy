/**
 Replaying flow events: what a stream of Opened, Updated and Closed events does to a flow map,
 and how the client's capped map compares with it.
 */
module Replication {
  import opened Types
  import opened Collections
  import opened Client
  import opened ClientIndex

  type Flows = map<string, ConnectionInfo>

  /** The flow key an event is about. */
  function KeyOfEvent(event: Event): Option<string> {
    match event
    case ConnectionOpened(conn) => Some(conn.key)
    case ConnectionUpdated(conn) => Some(conn.key)
    case ConnectionClosed(key) => Some(key)
    case _ => None
  }

  /** What an event leaves under its key. */
  function Leaves(event: Event): Option<ConnectionInfo> {
    match event
    case ConnectionOpened(conn) => Some(conn)
    case ConnectionUpdated(conn) => Some(conn)
    case _ => None
  }

  function ApplyFlow(m: Flows, event: Event): Flows {
    match event
    case ConnectionOpened(conn) => m[conn.key := conn]
    case ConnectionUpdated(conn) => m[conn.key := conn]
    case ConnectionClosed(key) => m - {key}
    case _ => m
  }

  function Replay(m: Flows, events: seq<Event>): Flows
    decreases |events|
  {
    if events == [] then m
    else ApplyFlow(Replay(m, events[..|events| - 1]), events[|events| - 1])
  }

  /** What the last event about a key leaves there, if any event is about it. */
  function LastWrite(events: seq<Event>, key: string): Option<Option<ConnectionInfo>>
    decreases |events|
  {
    if events == [] then None
    else
      var last := events[|events| - 1];
      if KeyOfEvent(last) == Some(key) then Some(Leaves(last))
      else LastWrite(events[..|events| - 1], key)
  }

  lemma {:induction false} ReplayAt(m: Flows, events: seq<Event>, key: string)
    ensures Get(Replay(m, events), key) ==
            var write := LastWrite(events, key);
            if write.Some? then write.value else Get(m, key)
    decreases |events|
  {
    if events == [] {
    } else {
      ReplayAt(m, events[..|events| - 1], key);
    }
  }

  lemma {:induction false} LastWriteConcat(a: seq<Event>, b: seq<Event>, key: string)
    ensures LastWrite(a + b, key) ==
            if LastWrite(b, key).Some? then LastWrite(b, key) else LastWrite(a, key)
    decreases |b|
  {
    if b == [] {
      assert a + b == a;
    } else {
      assert (a + b)[..|a + b| - 1] == a + b[..|b| - 1];
      LastWriteConcat(a, b[..|b| - 1], key);
    }
  }

  lemma SameFlows(m: Flows, n: Flows)
    requires forall k :: Get(m, k) == Get(n, k)
    ensures m == n
  {
    assert forall k :: k in m <==> Get(m, k).Some?;
    assert forall k :: k in n <==> Get(n, k).Some?;
    assert forall k :: k in m ==> Get(m, k) == Some(m[k]);
    assert forall k :: k in n ==> Get(n, k) == Some(n[k]);
  }

  lemma ReplayConcat(m: Flows, a: seq<Event>, b: seq<Event>)
    ensures Replay(m, a + b) == Replay(Replay(m, a), b)
  {
    forall k ensures Get(Replay(m, a + b), k) == Get(Replay(Replay(m, a), b), k) {
      ReplayAt(m, a + b, k);
      LastWriteConcat(a, b, k);
      ReplayAt(m, a, k);
      ReplayAt(Replay(m, a), b, k);
    }
    SameFlows(Replay(m, a + b), Replay(Replay(m, a), b));
  }

  /** Overlapping replay is idempotent: the events `b` may be applied twice. */
  lemma OverlapIsIdempotent(m: Flows, a: seq<Event>, b: seq<Event>, c: seq<Event>)
    ensures Replay(Replay(m, a + b), b + c) == Replay(m, a + b + c)
  {
    var twice, once := Replay(Replay(m, a + b), b + c), Replay(m, a + b + c);
    forall k ensures Get(twice, k) == Get(once, k) {
      ReplayAt(Replay(m, a + b), b + c, k);
      ReplayAt(m, a + b, k);
      ReplayAt(m, a + b + c, k);
      LastWriteConcat(a, b, k);
      LastWriteConcat(b, c, k);
      LastWriteConcat(a + b, c, k);
    }
    SameFlows(twice, once);
  }

  // ---------------------------------------------------------------- the capped client map

  /** The keys the cap throws out when a report is stored. */
  function EvictedBy(v: View, conn: ConnectionInfo): set<string> {
    Stored(IndexOf(v), conn).conns.Keys - Capped(Stored(IndexOf(v), conn)).conns.Keys
  }

  function LostAfter(v: View, lost: set<string>, event: Event): set<string> {
    match event
    case ConnectionOpened(conn) => lost - {conn.key} + EvictedBy(v, conn)
    case ConnectionUpdated(conn) => lost - {conn.key} + EvictedBy(v, conn)
    case ConnectionClosed(key) => lost - {key}
    case _ => lost
  }

  /** Keys thrown out by the cap that no event has been about since. */
  function Lost(v: View, events: seq<Event>): set<string>
    decreases |events|
  {
    if events == [] then {}
    else
      var init := events[..|events| - 1];
      LostAfter(Fold(v, init), Lost(v, init), events[|events| - 1])
  }

  lemma {:induction false} FoldKeepsCoherent(v: View, events: seq<Event>)
    requires Coherent(IndexOf(v))
    ensures Coherent(IndexOf(Fold(v, events)))
    decreases |events|
  {
    if events == [] {
    } else {
      FoldKeepsCoherent(v, events[..|events| - 1]);
      EventKeepsCoherent(Fold(v, events[..|events| - 1]), events[|events| - 1]);
    }
  }

  lemma {:induction false} FoldConcat(v: View, a: seq<Event>, b: seq<Event>)
    ensures Fold(v, a + b) == Fold(Fold(v, a), b)
    decreases |b|
  {
    if b == [] {
      assert a + b == a;
    } else {
      assert (a + b)[..|a + b| - 1] == a + b[..|b| - 1];
      FoldConcat(v, a, b[..|b| - 1]);
    }
  }

  lemma RestrictByKeys(kept: Flows, all: Flows, gone: set<string>)
    requires kept == all - gone
    ensures kept == all - (all.Keys - kept.Keys)
  {
  }

  lemma UpsertKeepsAllButEvicted(v: View, conn: ConnectionInfo, isOpen: bool)
    requires Coherent(IndexOf(v))
    ensures Upsert(v, conn, isOpen).conns == v.conns[conn.key := conn] - EvictedBy(v, conn)
  {
    var stored := Stored(IndexOf(v), conn);
    StoredIsCoherent(IndexOf(v), conn);
    CapDropsOldestSurplus(stored);
    RestrictByKeys(Capped(stored).conns, stored.conns, Elems(stored.order[..Surplus(|stored.conns|)]));
  }

  lemma UpsertStep(v: View, r: Flows, lost: set<string>, conn: ConnectionInfo, isOpen: bool)
    requires Coherent(IndexOf(v)) && v.conns == r - lost && lost <= r.Keys
    ensures var lost' := lost - {conn.key} + EvictedBy(v, conn);
            Upsert(v, conn, isOpen).conns == r[conn.key := conn] - lost' && lost' <= r[conn.key := conn].Keys
  {
    UpsertKeepsAllButEvicted(v, conn, isOpen);
    StoreMinusLost(r, lost, conn, EvictedBy(v, conn));
  }

  lemma StoreMinusLost(r: Flows, lost: set<string>, conn: ConnectionInfo, out: set<string>)
    requires lost <= r.Keys && out <= (r - lost)[conn.key := conn].Keys
    ensures (r - lost)[conn.key := conn] - out == r[conn.key := conn] - (lost - {conn.key} + out)
    ensures lost - {conn.key} + out <= r[conn.key := conn].Keys
  {
  }

  lemma CloseStep(v: View, r: Flows, lost: set<string>, key: string)
    requires v.conns == r - lost && lost <= r.Keys
    ensures Removed(v, key).conns == (r - {key}) - (lost - {key})
    ensures lost - {key} <= (r - {key}).Keys
  {
    assert Removed(v, key).conns == v.conns - {key};
  }

  lemma EventStep(v: View, r: Flows, lost: set<string>, event: Event)
    requires Coherent(IndexOf(v)) && v.conns == r - lost && lost <= r.Keys
    ensures AfterEvent(v, event).conns == ApplyFlow(r, event) - LostAfter(v, lost, event)
    ensures LostAfter(v, lost, event) <= ApplyFlow(r, event).Keys
  {
    match event
    case ConnectionOpened(conn) => UpsertStep(v, r, lost, conn, true);
    case ConnectionUpdated(conn) => UpsertStep(v, r, lost, conn, false);
    case ConnectionClosed(key) => CloseStep(v, r, lost, key);
    case _ =>
  }

  /** For every stream: the client's map is the replayed map without the lost keys, so nothing it
      shows is stale or wrong. */
  lemma {:induction false} ClientIsReplayMinusLost(v: View, events: seq<Event>)
    requires Coherent(IndexOf(v))
    ensures Lost(v, events) <= Replay(v.conns, events).Keys
    ensures Fold(v, events).conns == Replay(v.conns, events) - Lost(v, events)
    decreases |events|
  {
    if events == [] {
      assert v.conns - {} == v.conns;
    } else {
      var init, last := events[..|events| - 1], events[|events| - 1];
      ClientIsReplayMinusLost(v, init);
      FoldKeepsCoherent(v, init);
      EventStep(Fold(v, init), Replay(v.conns, init), Lost(v, init), last);
    }
  }

  // --------------------------------------------------- conditions on the stream alone

  /** Every event meets a condition at the map that the events before it leave. */
  predicate Always(ok: (Flows, Event) -> bool, m: Flows, events: seq<Event>)
    decreases |events|
  {
    events == []
    || (Always(ok, m, events[..|events| - 1]) && ok(Replay(m, events[..|events| - 1]), events[|events| - 1]))
  }

  /** After a report the table has no more flows than the client keeps. */
  predicate RoomFor(m: Flows, event: Event) {
    Leaves(event).Some? ==> |ApplyFlow(m, event)| <= MAX_CONNECTIONS
  }

  predicate Roomy(m: Flows, events: seq<Event>) {
    Always(RoomFor, m, events)
  }

  lemma {:induction false} AlwaysAt(ok: (Flows, Event) -> bool, m: Flows, events: seq<Event>, n: nat)
    requires Always(ok, m, events) && n < |events|
    ensures ok(Replay(m, events[..n]), events[n])
    decreases |events|
  {
    var init := events[..|events| - 1];
    if n == |init| {
    } else {
      AlwaysAt(ok, m, init, n);
      assert init[..n] == events[..n];
    }
  }

  lemma {:induction false} AlwaysFromEach(ok: (Flows, Event) -> bool, m: Flows, events: seq<Event>, n: nat)
    requires n <= |events| && forall i :: 0 <= i < n ==> ok(Replay(m, events[..i]), events[i])
    ensures Always(ok, m, events[..n])
    decreases n
  {
    if n == 0 {
    } else {
      AlwaysFromEach(ok, m, events, n - 1);
      assert events[..n][..n - 1] == events[..n - 1];
    }
  }

  /** The same, event by event. */
  lemma AlwaysMeans(ok: (Flows, Event) -> bool, m: Flows, events: seq<Event>)
    ensures Always(ok, m, events) <==> forall n :: 0 <= n < |events| ==> ok(Replay(m, events[..n]), events[n])
  {
    if Always(ok, m, events) {
      forall n | 0 <= n < |events| ensures ok(Replay(m, events[..n]), events[n]) {
        AlwaysAt(ok, m, events, n);
      }
    }
    if forall n :: 0 <= n < |events| ==> ok(Replay(m, events[..n]), events[n]) {
      AlwaysFromEach(ok, m, events, |events|);
      assert events[..|events|] == events;
    }
  }

  lemma {:induction false} AlwaysConcat(ok: (Flows, Event) -> bool, m: Flows, a: seq<Event>, b: seq<Event>)
    ensures Always(ok, m, a + b) <==> Always(ok, m, a) && Always(ok, Replay(m, a), b)
    decreases |b|
  {
    if b == [] {
      assert a + b == a;
    } else {
      var init, last := b[..|b| - 1], b[|b| - 1];
      assert (a + b)[..|a + b| - 1] == a + init && (a + b)[|a + b| - 1] == last;
      AlwaysConcat(ok, m, a, init);
      ReplayConcat(m, a, init);
    }
  }

  lemma AlwaysPrefix(ok: (Flows, Event) -> bool, m: Flows, events: seq<Event>, n: nat)
    requires Always(ok, m, events) && n <= |events|
    ensures Always(ok, m, events[..n])
  {
    AlwaysConcat(ok, m, events[..n], events[n..]);
    assert events[..n] + events[n..] == events;
  }

  /** The client holds the replayed map at every moment. */
  ghost predicate InStep(v: View, events: seq<Event>) {
    forall n :: 0 <= n <= |events| ==> Fold(v, events[..n]).conns == Replay(v.conns, events[..n])
  }

  lemma NoEvictionBelowCap(v: View, conn: ConnectionInfo)
    requires |v.conns[conn.key := conn]| <= MAX_CONNECTIONS
    ensures EvictedBy(v, conn) == {}
    ensures Capped(Stored(IndexOf(v), conn)) == Stored(IndexOf(v), conn)
  {
  }

  lemma ReportStepIff(v: View, conn: ConnectionInfo, isOpen: bool)
    requires Coherent(IndexOf(v))
    ensures Upsert(v, conn, isOpen).conns == v.conns[conn.key := conn]
            <==> |v.conns[conn.key := conn]| <= MAX_CONNECTIONS
  {
    UpsertIsFifo(v, conn, isOpen);
    if |v.conns[conn.key := conn]| <= MAX_CONNECTIONS {
      NoEvictionBelowCap(v, conn);
    }
  }

  lemma CloseConns(v: View, key: string)
    ensures Removed(v, key).conns == v.conns - {key}
  {
  }

  lemma EventStepIff(v: View, event: Event)
    requires Coherent(IndexOf(v))
    ensures AfterEvent(v, event).conns == ApplyFlow(v.conns, event) <==> RoomFor(v.conns, event)
  {
    if event.ConnectionOpened? {
      ReportStepIff(v, event.conn, true);
    } else if event.ConnectionUpdated? {
      ReportStepIff(v, event.conn, false);
    } else if event.ConnectionClosed? {
      CloseConns(v, event.key);
    } else {
      assert AfterEvent(v, event).conns == v.conns;
    }
  }

  lemma {:induction false} RoomyStaysInStep(v: View, events: seq<Event>)
    requires Coherent(IndexOf(v)) && Roomy(v.conns, events)
    ensures Fold(v, events).conns == Replay(v.conns, events)
    decreases |events|
  {
    if events == [] {
    } else {
      var init, last := events[..|events| - 1], events[|events| - 1];
      RoomyStaysInStep(v, init);
      FoldKeepsCoherent(v, init);
      EventStepIff(Fold(v, init), last);
    }
  }

  lemma InStepEventHasRoom(v: View, events: seq<Event>, n: nat)
    requires Coherent(IndexOf(v)) && InStep(v, events) && n < |events|
    ensures RoomFor(Replay(v.conns, events[..n]), events[n])
  {
    FoldKeepsCoherent(v, events[..n]);
    var more := events[..n + 1];
    assert more[..|more| - 1] == events[..n] && more[|more| - 1] == events[n];
    assert Fold(v, more).conns == Replay(v.conns, more);
    EventStepIff(Fold(v, events[..n]), events[n]);
  }

  /** For every stream: the client stays in step with it exactly when no report ever takes the
      replayed table beyond the client's cap. */
  lemma InStepIff(v: View, events: seq<Event>)
    requires Coherent(IndexOf(v))
    ensures InStep(v, events) <==> Roomy(v.conns, events)
  {
    if Roomy(v.conns, events) {
      forall n | 0 <= n <= |events| ensures Fold(v, events[..n]).conns == Replay(v.conns, events[..n]) {
        AlwaysPrefix(RoomFor, v.conns, events, n);
        RoomyStaysInStep(v, events[..n]);
      }
    }
    if InStep(v, events) {
      forall n | 0 <= n < |events| ensures RoomFor(Replay(v.conns, events[..n]), events[n]) {
        InStepEventHasRoom(v, events, n);
      }
      AlwaysMeans(RoomFor, v.conns, events);
    }
  }

  lemma InStepAtTheEnd(v: View, events: seq<Event>)
    requires InStep(v, events)
    ensures Fold(v, events).conns == Replay(v.conns, events)
  {
    assert events[..|events|] == events;
  }

  // ------------------------------------------------- what else is broadcast between flow events

  /** The events of a stream that are about flows. */
  function OnlyFlowEvents(events: seq<Event>): seq<Event> {
    if events == [] then []
    else
      var init, last := OnlyFlowEvents(events[..|events| - 1]), events[|events| - 1];
      if KeyOfEvent(last).Some? then init + [last] else init
  }

  lemma {:induction false} OnlyFlowEventsConcat(a: seq<Event>, b: seq<Event>)
    ensures OnlyFlowEvents(a + b) == OnlyFlowEvents(a) + OnlyFlowEvents(b)
    decreases |b|
  {
    if b == [] {
      assert a + b == a;
    } else {
      assert (a + b)[..|a + b| - 1] == a + b[..|b| - 1];
      OnlyFlowEventsConcat(a, b[..|b| - 1]);
    }
  }

  lemma {:induction false} ReplayIgnoresOthers(m: Flows, events: seq<Event>)
    ensures Replay(m, events) == Replay(m, OnlyFlowEvents(events))
    decreases |events|
  {
    if events == [] {
    } else {
      var flows := OnlyFlowEvents(events);
      ReplayIgnoresOthers(m, events[..|events| - 1]);
      if KeyOfEvent(events[|events| - 1]).Some? {
        assert flows[..|flows| - 1] == OnlyFlowEvents(events[..|events| - 1]);
      }
    }
  }

  /** A condition that every event that is not about a flow meets. */
  ghost predicate AboutFlows(ok: (Flows, Event) -> bool) {
    forall m, event :: KeyOfEvent(event) == None ==> ok(m, event)
  }

  lemma {:induction false} AlwaysIgnoresOthers(ok: (Flows, Event) -> bool, m: Flows, events: seq<Event>)
    requires AboutFlows(ok)
    ensures Always(ok, m, events) <==> Always(ok, m, OnlyFlowEvents(events))
    decreases |events|
  {
    if events == [] {
    } else {
      var init, last, flows := events[..|events| - 1], events[|events| - 1], OnlyFlowEvents(events);
      AlwaysIgnoresOthers(ok, m, init);
      if KeyOfEvent(last).Some? {
        ReplayIgnoresOthers(m, init);
        assert flows[..|flows| - 1] == OnlyFlowEvents(init);
      }
    }
  }

  lemma {:induction false} SubsetSize<T>(s: set<T>, t: set<T>)
    requires s <= t
    ensures |s| <= |t|
    decreases |s|
  {
    if s == {} {
    } else {
      var x :| x in s;
      SubsetSize(s - {x}, t - {x});
    }
  }
}
