/**
 App accounting in the client: when every app's `connections` is the number of live flows with
 its key, and every listed app has a live flow or a Block rule.
 */
module ClientApps {
  import opened Types
  import opened Collections
  import opened Client
  import opened ClientIndex
  import opened ClientRules
  import opened Replication
  import opened Convergence
  import opened FlowTable

  function FlowsOf(conns: Flows, key: string): set<string> {
    set k | k in conns && AppKeyOf(conns[k]) == key
  }

  function Count(apps: map<string, AppEntry>, key: string): nat {
    if key in apps then apps[key].connections else 0
  }

  ghost predicate Accounted(v: View) {
    && (forall a :: Count(v.apps, a) == |FlowsOf(v.conns, a)|)
    && (forall a :: a in v.apps ==> !Idle(v.apps[a]))
  }

  lemma AccountedMeans(v: View)
    requires Accounted(v) && FlagsExact(v.apps, v.rules)
    ensures forall k :: k in v.conns ==> AppKeyOf(v.conns[k]) in v.apps
    ensures forall a :: a in v.apps ==>
              || (exists k :: k in v.conns && AppKeyOf(v.conns[k]) == a)
              || (exists r :: r in v.rules && Blocks(r, v.apps[a].exe))
  {
    forall k | k in v.conns ensures AppKeyOf(v.conns[k]) in v.apps {
      assert k in FlowsOf(v.conns, AppKeyOf(v.conns[k]));
    }
    forall a | a in v.apps
      ensures || (exists k :: k in v.conns && AppKeyOf(v.conns[k]) == a)
              || (exists r :: r in v.rules && Blocks(r, v.apps[a].exe))
    {
      assert Exact(v.apps[a], v.rules);
      if v.apps[a].connections > 0 {
        assert Count(v.apps, a) == |FlowsOf(v.conns, a)|;
        var k :| k in FlowsOf(v.conns, a);
      }
    }
  }

  // ------------------------------------------------------------------------ a flow report

  /** When a flow report keeps the accounts. The last case is a curiosity: an update of a flow the
      client does not know is not counted, which goes unnoticed if storing it evicts one flow of
      the same app. */
  predicate ReportOk(v: View, conn: ConnectionInfo, isOpen: bool) {
    if conn.key in v.conns then
      AppKeyOf(v.conns[conn.key]) == AppKeyOf(conn) && |v.conns| <= MAX_CONNECTIONS
    else if isOpen then
      |v.conns| < MAX_CONNECTIONS
    else
      |v.conns| == MAX_CONNECTIONS && v.order != [] && v.order[0] in v.conns
      && AppKeyOf(v.conns[v.order[0]]) == AppKeyOf(conn)
  }

  function NewFlows(v: View, conn: ConnectionInfo, isOpen: bool, key: string): nat {
    if isOpen && conn.key !in v.conns && key == AppKeyOf(conn) then 1 else 0
  }

  lemma UpsertCounts(v: View, conn: ConnectionInfo, isOpen: bool, key: string)
    ensures Count(Upsert(v, conn, isOpen).apps, key) == Count(v.apps, key) + NewFlows(v, conn, isOpen, key)
  {
  }

  lemma UpsertFlows(v: View, conn: ConnectionInfo, isOpen: bool, key: string)
    requires Coherent(IndexOf(v))
    ensures FlowsOf(Upsert(v, conn, isOpen).conns, key)
            == FlowsOf(v.conns[conn.key := conn], key) - EvictedBy(v, conn)
  {
    UpsertKeepsAllButEvicted(v, conn, isOpen);
  }

  lemma StoredFlows(conns: Flows, conn: ConnectionInfo, key: string)
    ensures FlowsOf(conns[conn.key := conn], key) ==
            (if key == AppKeyOf(conn) then FlowsOf(conns, key) + {conn.key} else FlowsOf(conns, key) - {conn.key})
  {
  }

  lemma DroppedKeys(all: Flows, kept: Flows, gone: set<string>)
    requires kept == all - gone && gone <= all.Keys
    ensures all.Keys - kept.Keys == gone
  {
  }

  lemma CapEvictsOldest(ix: Index)
    requires Coherent(ix)
    ensures Surplus(|ix.conns|) <= |ix.order|
    ensures ix.conns.Keys - Capped(ix).conns.Keys == Elems(ix.order[..Surplus(|ix.conns|)])
    ensures |Elems(ix.order[..Surplus(|ix.conns|)])| == Surplus(|ix.conns|)
  {
    CapDropsOldestSurplus(ix);
    var n := Surplus(|ix.conns|);
    OldestOf(ix.order, n);
    DroppedKeys(ix.conns, Capped(ix).conns, Elems(ix.order[..n]));
  }

  lemma EvictedCount(v: View, conn: ConnectionInfo)
    requires Coherent(IndexOf(v))
    ensures |EvictedBy(v, conn)| == Surplus(|v.conns[conn.key := conn]|)
  {
    StoredIsCoherent(IndexOf(v), conn);
    CapEvictsOldest(Stored(IndexOf(v), conn));
  }

  lemma OldestIsEvicted(v: View, conn: ConnectionInfo)
    requires Coherent(IndexOf(v)) && v.order != [] && EvictedBy(v, conn) != {}
    ensures v.order[0] in EvictedBy(v, conn) && v.order[0] in v.conns
  {
    var stored := Stored(IndexOf(v), conn);
    StoredIsCoherent(IndexOf(v), conn);
    CapEvictsOldest(stored);
    assert stored.order[0] in stored.order[..Surplus(|stored.conns|)];
    assert v.order[0] in Elems(v.order);
  }

  lemma NewcomerStays(v: View, conn: ConnectionInfo)
    requires Coherent(IndexOf(v)) && conn.key !in v.conns
    ensures conn.key !in EvictedBy(v, conn)
  {
    StoredIsCoherent(IndexOf(v), conn);
    YoungestStays(Stored(IndexOf(v), conn));
  }

  /** Flows of an app after an upsert that evicts nothing. */
  lemma UpsertFlowsBelowCap(v: View, conn: ConnectionInfo, isOpen: bool, key: string)
    requires Coherent(IndexOf(v)) && |v.conns[conn.key := conn]| <= MAX_CONNECTIONS
    ensures FlowsOf(Upsert(v, conn, isOpen).conns, key) == FlowsOf(v.conns[conn.key := conn], key)
  {
    UpsertFlows(v, conn, isOpen, key);
    EvictedCount(v, conn);
  }

  lemma StoredSize(conns: Flows, conn: ConnectionInfo)
    ensures |conns[conn.key := conn]| == |conns| + if conn.key in conns then 0 else 1
  {
    var stored := conns[conn.key := conn];
    assert stored.Keys == conns.Keys + {conn.key};
    assert |stored| == |stored.Keys| && |conns| == |conns.Keys|;
  }

  lemma ReportOkKeepsCounts(v: View, conn: ConnectionInfo, isOpen: bool, key: string)
    requires Coherent(IndexOf(v)) && Accounted(v) && ReportOk(v, conn, isOpen)
    ensures Count(Upsert(v, conn, isOpen).apps, key) == |FlowsOf(Upsert(v, conn, isOpen).conns, key)|
  {
    UpsertCounts(v, conn, isOpen, key);
    StoredFlows(v.conns, conn, key);
    StoredSize(v.conns, conn);
    if conn.key in v.conns || isOpen {
      UpsertFlowsBelowCap(v, conn, isOpen, key);
      assert conn.key in v.conns ==> FlowsOf(v.conns[conn.key := conn], key) == FlowsOf(v.conns, key);
    } else {
      OneForOne(v, conn, key);
    }
  }

  /** An unknown update that evicts a flow of its own app leaves every app's number of flows. */
  lemma OneForOne(v: View, conn: ConnectionInfo, key: string)
    requires Coherent(IndexOf(v)) && conn.key !in v.conns && ReportOk(v, conn, false)
    ensures |FlowsOf(Upsert(v, conn, false).conns, key)| == |FlowsOf(v.conns, key)|
  {
    var x, mine := v.order[0], FlowsOf(v.conns, key);
    UpsertFlows(v, conn, false, key);
    StoredFlows(v.conns, conn, key);
    StoredSize(v.conns, conn);
    EvictedCount(v, conn);
    OldestIsEvicted(v, conn);
    Singleton(EvictedBy(v, conn), x);
    if key == AppKeyOf(conn) {
      assert mine + {conn.key} - {x} == (mine - {x}) + {conn.key};
    } else {
      assert mine - {conn.key} - {x} == mine;
    }
  }

  lemma Singleton<T>(s: set<T>, x: T)
    requires |s| == 1 && x in s
    ensures s == {x}
  {
    assert |s - {x}| == 0;
  }

  lemma Smaller(now: set<string>, before: set<string>, gone: string, extra: set<string>, n: nat)
    requires now <= before + extra - {gone} && gone in before && |extra| <= n
    ensures |now| < |before| + n
  {
    SubsetSize(now, (before - {gone}) + extra);
    assert |(before - {gone}) + extra| <= |before - {gone}| + |extra|;
  }

  /** A flow that leaves an app other than through ConnectionClosed makes the app's count too high. */
  lemma LostFlowBreaksCount(v: View, conn: ConnectionInfo, isOpen: bool, key: string, gone: string)
    requires Coherent(IndexOf(v)) && Accounted(v)
    requires gone in FlowsOf(v.conns, key) && gone !in FlowsOf(Upsert(v, conn, isOpen).conns, key)
    requires key != AppKeyOf(conn) || conn.key in FlowsOf(v.conns, key) || NewFlows(v, conn, isOpen, key) == 1
    ensures !Accounted(Upsert(v, conn, isOpen))
  {
    var w, n := Upsert(v, conn, isOpen), NewFlows(v, conn, isOpen, key);
    UpsertCounts(v, conn, isOpen, key);
    UpsertFlows(v, conn, isOpen, key);
    StoredFlows(v.conns, conn, key);
    var extra := if n == 1 then {conn.key} else {};
    assert FlowsOf(w.conns, key) <= FlowsOf(v.conns, key) + extra - {gone};
    Smaller(FlowsOf(w.conns, key), FlowsOf(v.conns, key), gone, extra, n);
  }

  lemma ReportNotOkBreaks(v: View, conn: ConnectionInfo, isOpen: bool)
    requires Coherent(IndexOf(v)) && Accounted(v) && !ReportOk(v, conn, isOpen)
    ensures !Accounted(Upsert(v, conn, isOpen))
  {
    CoherentSize(IndexOf(v));
    StoredSize(v.conns, conn);
    EvictedCount(v, conn);
    if conn.key in v.conns && AppKeyOf(v.conns[conn.key]) != AppKeyOf(conn) {
      var b := AppKeyOf(v.conns[conn.key]);
      UpsertFlows(v, conn, isOpen, b);
      StoredFlows(v.conns, conn, b);
      LostFlowBreaksCount(v, conn, isOpen, b, conn.key);
    } else if conn.key in v.conns || isOpen {
      var x := v.order[0];
      OldestIsEvicted(v, conn);
      UpsertFlows(v, conn, isOpen, AppKeyOf(v.conns[x]));
      LostFlowBreaksCount(v, conn, isOpen, AppKeyOf(v.conns[x]), x);
    } else {
      UnknownUpdateBreaks(v, conn);
    }
  }

  lemma UnknownUpdateBreaks(v: View, conn: ConnectionInfo)
    requires Coherent(IndexOf(v)) && Accounted(v) && conn.key !in v.conns && !ReportOk(v, conn, false)
    ensures !Accounted(Upsert(v, conn, false))
  {
    var a, out := AppKeyOf(conn), EvictedBy(v, conn);
    NewcomerStays(v, conn);
    if x :| x in out && AppKeyOf(v.conns[x]) != a {
      UpsertFlows(v, conn, false, AppKeyOf(v.conns[x]));
      LostFlowBreaksCount(v, conn, false, AppKeyOf(v.conns[x]), x);
    } else {
      OwnEvictionsBreak(v, conn);
    }
  }

  lemma SetArithmetic(now: set<string>, before: set<string>, added: string, out: set<string>)
    requires now == before + {added} - out && added !in before && added !in out && out <= before
    ensures |now| == |before| + 1 - |out|
  {
    assert now == (before - out) + {added};
    assert |before - out| == |before| - |out|;
  }

  lemma OwnEvictionsBreak(v: View, conn: ConnectionInfo)
    requires Coherent(IndexOf(v)) && Accounted(v) && conn.key !in v.conns && !ReportOk(v, conn, false)
    requires forall x :: x in EvictedBy(v, conn) ==> x in v.conns && AppKeyOf(v.conns[x]) == AppKeyOf(conn)
    ensures !Accounted(Upsert(v, conn, false))
  {
    var a, out := AppKeyOf(conn), EvictedBy(v, conn);
    var w, mine := Upsert(v, conn, false), FlowsOf(v.conns, a);
    UpsertFlows(v, conn, false, a);
    StoredFlows(v.conns, conn, a);
    UpsertCounts(v, conn, false, a);
    SetArithmetic(FlowsOf(w.conns, a), mine, conn.key, out);
    assert |FlowsOf(w.conns, a)| == |mine| + 1 - |out|;
    if |out| == 1 {
      StoredSize(v.conns, conn);
      EvictedCount(v, conn);
      OldestIsEvicted(v, conn);
    }
  }

  /** A flow report keeps the accounts exactly when `ReportOk` holds before it. */
  lemma ReportAccountsIff(v: View, conn: ConnectionInfo, isOpen: bool)
    requires Coherent(IndexOf(v)) && Accounted(v)
    ensures Accounted(Upsert(v, conn, isOpen)) <==> ReportOk(v, conn, isOpen)
  {
    if ReportOk(v, conn, isOpen) {
      var w := Upsert(v, conn, isOpen);
      forall key ensures Count(w.apps, key) == |FlowsOf(w.conns, key)| {
        ReportOkKeepsCounts(v, conn, isOpen, key);
      }
      var a := AppKeyOf(conn);
      UpsertCounts(v, conn, isOpen, a);
      if conn.key in v.conns {
        assert conn.key in FlowsOf(v.conns, a);
      } else if !isOpen {
        assert v.order[0] in FlowsOf(v.conns, a);
      }
      assert Count(w.apps, a) > 0;
    } else {
      ReportNotOkBreaks(v, conn, isOpen);
    }
  }

  // ------------------------------------------------------------------------- other events

  lemma RefreshKeepsCounts(apps: map<string, AppEntry>, rules: seq<Rule>, key: string)
    ensures Count(Refreshed(apps, rules), key) == Count(apps, key)
  {
    WithBlockedAppsOwner(apps, rules, key);
    OwnerCount(Get(apps, key), rules, key);
  }

  lemma {:induction false} OwnerCount(before: Option<AppEntry>, rules: seq<Rule>, key: string)
    ensures var owner := Owner(before, rules, key);
            (if owner.Some? then owner.value.connections else 0)
            == if before.Some? then before.value.connections else 0
    decreases |rules|
  {
    if before.Some? || rules == [] {
    } else {
      OwnerCount(before, rules[1..], key);
    }
  }

  lemma RefreshAccounts(v: View, w: View)
    requires Accounted(v) && w.conns == v.conns && w.apps == Refreshed(v.apps, w.rules)
    ensures Accounted(w)
  {
    forall key ensures Count(w.apps, key) == |FlowsOf(w.conns, key)| {
      RefreshKeepsCounts(v.apps, w.rules, key);
    }
  }

  lemma CloseAccounts(v: View, key: string)
    requires Accounted(v)
    ensures Accounted(Removed(v, key))
  {
    if key in v.conns {
      var a, w := AppKeyOf(v.conns[key]), Removed(v, key);
      assert key in FlowsOf(v.conns, a);
      assert Count(v.apps, a) > 0;
      forall b ensures Count(w.apps, b) == |FlowsOf(w.conns, b)| {
        assert FlowsOf(w.conns, b) == FlowsOf(v.conns, b) - if b == a then {key} else {};
      }
    }
  }

  predicate EventOk(v: View, event: Event) {
    match event
    case ConnectionOpened(conn) => ReportOk(v, conn, true)
    case ConnectionUpdated(conn) => ReportOk(v, conn, false)
    case _ => true
  }

  lemma EventAccountsIff(v: View, event: Event)
    requires Coherent(IndexOf(v)) && Accounted(v)
    ensures Accounted(AfterEvent(v, event)) <==> EventOk(v, event)
  {
    match event
    case ConnectionOpened(conn) => ReportAccountsIff(v, conn, true);
    case ConnectionUpdated(conn) => ReportAccountsIff(v, conn, false);
    case ConnectionClosed(key) => CloseAccounts(v, key);
    case RuleAdded(_) => RefreshAccounts(v, AfterEvent(v, event));
    case RuleRemoved(_) => RefreshAccounts(v, AfterEvent(v, event));
    case _ =>
  }

  ghost predicate AccountedThroughout(v: View, events: seq<Event>) {
    forall n :: 0 <= n <= |events| ==> Accounted(Fold(v, events[..n]))
  }

  ghost predicate EventsOk(v: View, events: seq<Event>) {
    forall n :: 0 <= n < |events| ==> EventOk(Fold(v, events[..n]), events[n])
  }

  lemma {:induction false} EventsOkAccount(v: View, events: seq<Event>, n: nat)
    requires Coherent(IndexOf(v)) && Accounted(v) && EventsOk(v, events) && n <= |events|
    ensures Accounted(Fold(v, events[..n]))
    decreases n
  {
    if n == 0 {
    } else {
      EventsOkAccount(v, events, n - 1);
      FoldKeepsCoherent(v, events[..n - 1]);
      assert events[..n][..n - 1] == events[..n - 1];
      EventAccountsIff(Fold(v, events[..n - 1]), events[n - 1]);
    }
  }

  /** For every stream from a consistent state: the accounts are right throughout exactly when
      every event passes its guard. */
  lemma AccountedThroughoutIff(v: View, events: seq<Event>)
    requires Coherent(IndexOf(v)) && Accounted(v)
    ensures AccountedThroughout(v, events) <==> EventsOk(v, events)
  {
    if EventsOk(v, events) {
      forall n | 0 <= n <= |events| ensures Accounted(Fold(v, events[..n])) {
        EventsOkAccount(v, events, n);
      }
    }
    if AccountedThroughout(v, events) {
      forall n | 0 <= n < |events| ensures EventOk(Fold(v, events[..n]), events[n]) {
        FoldKeepsCoherent(v, events[..n]);
        assert events[..n + 1][..n] == events[..n];
        EventAccountsIff(Fold(v, events[..n]), events[n]);
      }
    }
  }

  // ------------------------------------------------------------- the daemon's own streams

  /** No report moves a live flow to another app. */
  predicate KeepsApp(m: Flows, event: Event) {
    Leaves(event).Some? && Leaves(event).value.key in m ==>
      AppKeyOf(m[Leaves(event).value.key]) == AppKeyOf(Leaves(event).value)
  }

  /** ... and only known flows are updated. */
  predicate Steady(m: Flows, event: Event) {
    KeepsApp(m, event) && (event.ConnectionUpdated? ==> event.conn.key in m)
  }

  lemma RoomyEventOkIff(v: View, event: Event)
    requires RoomFor(v.conns, event)
    ensures EventOk(v, event) <==> Steady(v.conns, event)
  {
    if Leaves(event).Some? {
      StoredSize(v.conns, Leaves(event).value);
    }
  }

  lemma CrowdedEventNotOk(v: View, event: Event)
    requires Fits(v.conns, event) && !RoomFor(v.conns, event)
    ensures !EventOk(v, event)
  {
    StoredSize(v.conns, Leaves(event).value);
  }

  lemma ThroughoutPrefix(v: View, events: seq<Event>, k: nat)
    requires AccountedThroughout(v, events) && k <= |events|
    ensures AccountedThroughout(v, events[..k])
  {
    forall n | 0 <= n <= k ensures Accounted(Fold(v, events[..k][..n])) {
      assert events[..k][..n] == events[..n];
    }
  }

  lemma ThroughoutOneMore(v: View, events: seq<Event>)
    requires events != [] && AccountedThroughout(v, events[..|events| - 1]) && Accounted(Fold(v, events))
    ensures AccountedThroughout(v, events)
  {
    var k := |events| - 1;
    forall n | 0 <= n <= |events| ensures Accounted(Fold(v, events[..n])) {
      if n <= k {
        assert events[..k][..n] == events[..n];
      } else {
        assert events[..n] == events;
      }
    }
  }

  lemma ThroughoutLast(v: View, events: seq<Event>)
    requires events != []
    ensures AccountedThroughout(v, events) <==>
            AccountedThroughout(v, events[..|events| - 1]) && Accounted(Fold(v, events))
  {
    if AccountedThroughout(v, events) {
      ThroughoutPrefix(v, events, |events| - 1);
      LastAccounted(v, events);
    }
    if AccountedThroughout(v, events[..|events| - 1]) && Accounted(Fold(v, events)) {
      ThroughoutOneMore(v, events);
    }
  }

  /** One more event of a stream with which the client has been in step. */
  lemma LastEventAccountsIff(v: View, events: seq<Event>)
    requires Coherent(IndexOf(v)) && events != []
    requires Roomy(v.conns, events[..|events| - 1]) && Accounted(Fold(v, events[..|events| - 1]))
    ensures var m, last := Replay(v.conns, events[..|events| - 1]), events[|events| - 1];
            && (RoomFor(m, last) ==> (Accounted(Fold(v, events)) <==> Steady(m, last)))
            && (Fits(m, last) && !RoomFor(m, last) ==> !Accounted(Fold(v, events)))
  {
    var init, last := events[..|events| - 1], events[|events| - 1];
    RoomyStaysInStep(v, init);
    FoldKeepsCoherent(v, init);
    EventAccountsIff(Fold(v, init), last);
    if RoomFor(Replay(v.conns, init), last) {
      RoomyEventOkIff(Fold(v, init), last);
    } else if Fits(Replay(v.conns, init), last) {
      CrowdedEventNotOk(Fold(v, init), last);
    }
  }

  /** For every stream that leaves room, overlapping or not: the accounts are right throughout
      exactly when every event is steady. */
  lemma {:induction false} RoomyStreamAccountsIff(v: View, events: seq<Event>)
    requires Coherent(IndexOf(v)) && Accounted(v) && Roomy(v.conns, events)
    ensures AccountedThroughout(v, events) <==> Always(Steady, v.conns, events)
    decreases |events|
  {
    if events == [] {
    } else {
      RoomyStreamAccountsIff(v, events[..|events| - 1]);
      ThroughoutLast(v, events);
      if AccountedThroughout(v, events[..|events| - 1]) {
        LastAccounted(v, events[..|events| - 1]);
        LastEventAccountsIff(v, events);
      }
    }
  }

  lemma LastAccounted(v: View, events: seq<Event>)
    requires AccountedThroughout(v, events)
    ensures Accounted(Fold(v, events))
  {
    assert events[..|events|] == events;
  }

  /** For every stream whatever, in terms of the stream alone: the client is in step with it and has
      right accounts throughout exactly when every report leaves room and every event is steady. */
  lemma InStepAndAccountedIff(v: View, events: seq<Event>)
    requires Coherent(IndexOf(v)) && Accounted(v)
    ensures InStep(v, events) && AccountedThroughout(v, events)
            <==> Roomy(v.conns, events) && Always(Steady, v.conns, events)
  {
    InStepIff(v, events);
    if Roomy(v.conns, events) {
      RoomyStreamAccountsIff(v, events);
    }
  }

  lemma FittingIsSteady(m: Flows, event: Event)
    requires Fits(m, event)
    ensures Steady(m, event) <==> KeepsApp(m, event)
  {
  }

  /** For every well-formed stream: the accounts are right throughout exactly when no report takes
      the table beyond the client's cap and no flow changes its app. */
  lemma {:induction false} WellFormedStreamAccountsIff(v: View, events: seq<Event>)
    requires Coherent(IndexOf(v)) && Accounted(v) && WellFormed(v.conns, events)
    ensures AccountedThroughout(v, events) <==> Roomy(v.conns, events) && Always(KeepsApp, v.conns, events)
    decreases |events|
  {
    if events == [] {
    } else {
      var init, last := events[..|events| - 1], events[|events| - 1];
      WellFormedStreamAccountsIff(v, init);
      ThroughoutLast(v, events);
      if AccountedThroughout(v, init) {
        LastAccounted(v, init);
        LastEventAccountsIff(v, events);
        FittingIsSteady(Replay(v.conns, init), last);
      }
    }
  }

  lemma BatchKeepsApps(before: Flows, after: Flows, batch: seq<Event>)
    requires Publication(before, after, batch)
    ensures Always(KeepsApp, before, batch)
  {
    forall n | 0 <= n < |batch| ensures KeepsApp(Replay(before, batch[..n]), batch[n]) {
      KeyUntouched(before, after, batch, n);
    }
    AlwaysMeans(KeepsApp, before, batch);
  }

  lemma {:induction false} PollsKeepApps(tables: seq<Flows>, batches: seq<seq<Event>>)
    requires PollsFrom(tables, batches)
    ensures Always(KeepsApp, tables[0], Stream(batches))
    decreases |batches|
  {
    if batches == [] {
    } else {
      var n := |batches| - 1;
      FirstPolls(tables, batches, n);
      PollsKeepApps(tables[..n + 1], batches[..n]);
      PollsReachTable(tables[..n + 1], batches[..n]);
      BatchKeepsApps(tables[n], tables[n + 1], batches[n]);
      AlwaysConcat(KeepsApp, tables[0], Stream(batches[..n]), batches[n]);
    }
  }

  lemma AppsAreAboutFlows()
    ensures AboutFlows(KeepsApp) && AboutFlows(Steady)
  {
  }

  /** A client whose snapshot is one poll's table, and that hears everything the daemon broadcasts
      from then on (polls, rules, processes, pauses, networks), has right accounts throughout exactly
      when every poll that reports a flow leaves a table that fits under the client's cap. */
  lemma PollsAccountIff(v: View, tables: seq<Flows>, batches: seq<seq<Event>>, log: seq<Event>)
    requires PollsFrom(tables, batches) && OnlyFlowEvents(log) == Stream(batches)
    requires Coherent(IndexOf(v)) && Accounted(v) && v.conns == tables[0]
    ensures AccountedThroughout(v, log) <==> TablesFit(tables, batches)
    ensures TablesFit(tables, batches) ==> Fold(v, log).conns == tables[|batches|]
  {
    FlowEventsOnly();
    AppsAreAboutFlows();
    PollsAreWellFormed(tables, batches);
    PollsKeepApps(tables, batches);
    AlwaysIgnoresOthers(Fits, tables[0], log);
    AlwaysIgnoresOthers(KeepsApp, tables[0], log);
    PollsInStepIff(tables, batches, log, v);
    InStepIff(v, log);
    WellFormedStreamAccountsIff(v, log);
  }

  /** An update that the client hears of a flow it does not know, and then its close: the flow map
      is as before, and the app of a live flow `y` is off the page. */
  lemma StaleUpdateDropsApp(v: View, x: ConnectionInfo, y: ConnectionInfo)
    requires v.conns == map[y.key := y] && v.order == [y.key]
    requires x.key != y.key && AppKeyOf(x) == AppKeyOf(y) && AppKeyOf(y) in v.apps
    requires v.apps[AppKeyOf(y)].connections == 1 && RuleFor(v.rules, v.apps[AppKeyOf(y)].exe) == None
    ensures var w := AfterEvent(AfterEvent(v, ConnectionUpdated(x)), ConnectionClosed(x.key));
            w.conns == v.conns && AppKeyOf(y) !in w.apps
  {
    var stored := Stored(IndexOf(v), x);
    assert stored.conns.Keys == {x.key, y.key};
    assert |stored.conns| == |stored.conns.Keys|;
    assert Capped(stored) == stored;
    assert stored.conns - {x.key} == v.conns;
  }

  // ------------------------------------------------------------------------ active apps

  /** With right accounts the active apps are exactly those of the live flows. */
  lemma ActiveAppsAreLive(v: View)
    requires Accounted(v)
    ensures ActiveKeys(v) == set k | k in v.conns :: AppKeyOf(v.conns[k])
    ensures |ActiveKeys(v)| == |set k | k in v.conns :: AppKeyOf(v.conns[k])|
  {
    forall a ensures a in ActiveKeys(v) <==> exists k :: k in v.conns && AppKeyOf(v.conns[k]) == a {
      assert Count(v.apps, a) == |FlowsOf(v.conns, a)|;
      if k :| k in v.conns && AppKeyOf(v.conns[k]) == a {
        assert k in FlowsOf(v.conns, a);
      } else {
        assert FlowsOf(v.conns, a) == {};
      }
    }
  }
}
