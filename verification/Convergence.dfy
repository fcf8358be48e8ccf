/**
 Whole runs of the daemon's polls, and a client that subscribes, fetches a snapshot and then
 applies the stream (crates/gui/src/client.rs, `session`).
 */
module Convergence {
  import opened Types
  import opened Collections
  import opened Client
  import opened ClientIndex
  import opened Replication
  import opened FlowTable
  import opened Conntrack

  // --------------------------------------------------------------------- one published batch

  lemma {:induction false} LastWriteFrom(events: seq<Event>, key: string) returns (e: Event)
    ensures LastWrite(events, key).Some? <==> exists x :: x in events && KeyOfEvent(x) == Some(key)
    ensures LastWrite(events, key).Some? ==>
              e in events && KeyOfEvent(e) == Some(key) && LastWrite(events, key) == Some(Leaves(e))
    decreases |events|
  {
    if events == [] {
      e := ProcessExited(0);
    } else {
      var last := events[|events| - 1];
      assert events == events[..|events| - 1] + [last];
      e := LastWriteFrom(events[..|events| - 1], key);
      if KeyOfEvent(last) == Some(key) {
        e := last;
      }
    }
  }

  lemma AnnouncesLeaves(event: Event, before: Flows, after: Flows, key: string)
    requires Announces(event, before, after) && KeyOfEvent(event) == Some(key)
    ensures Leaves(event) == Get(after, key)
  {
  }

  /** Replaying a published batch on the old table gives the new one. */
  lemma PublicationReplays(before: Flows, after: Flows, batch: seq<Event>)
    requires Publication(before, after, batch)
    ensures Replay(before, batch) == after
  {
    forall k ensures Get(Replay(before, batch), k) == Get(after, k) {
      ReplayAt(before, batch, k);
      var e := LastWriteFrom(batch, k);
      if LastWrite(batch, k).Some? {
        AnnouncesLeaves(e, before, after, k);
      }
    }
    SameFlows(Replay(before, batch), after);
  }

  /** ... in whatever order the batch is replayed. */
  lemma AnyOrderReplays(before: Flows, after: Flows, batch: seq<Event>, shuffled: seq<Event>)
    requires Publication(before, after, batch) && multiset(shuffled) == multiset(batch)
    ensures Publication(before, after, shuffled)
    ensures Replay(before, shuffled) == after
  {
    assert forall e :: e in shuffled <==> e in multiset(shuffled);
    assert forall e :: e in batch <==> e in multiset(batch);
    PublicationReplays(before, after, shuffled);
  }

  // ------------------------------------------------------------------------- runs of polls

  function Stream(batches: seq<seq<Event>>): seq<Event> {
    if batches == [] then [] else Stream(batches[..|batches| - 1]) + batches[|batches| - 1]
  }

  /** The tables between successive polls, and what each poll published. */
  ghost predicate PollsFrom(tables: seq<Flows>, batches: seq<seq<Event>>) {
    && |tables| == |batches| + 1
    && forall j :: 0 <= j < |batches| ==> PollBatch(tables[j], tables[j + 1], batches[j])
  }

  /** The same from the start of the daemon. */
  ghost predicate PollRun(tables: seq<Flows>, batches: seq<seq<Event>>) {
    PollsFrom(tables, batches) && tables[0] == map[]
  }

  lemma FirstPolls(tables: seq<Flows>, batches: seq<seq<Event>>, p: nat)
    requires PollsFrom(tables, batches) && p <= |batches|
    ensures PollsFrom(tables[..p + 1], batches[..p])
  {
  }

  lemma {:induction false} PollsReachTable(tables: seq<Flows>, batches: seq<seq<Event>>)
    requires PollsFrom(tables, batches)
    ensures Replay(tables[0], Stream(batches)) == tables[|batches|]
    decreases |batches|
  {
    if batches == [] {
    } else {
      var n := |batches| - 1;
      FirstPolls(tables, batches, n);
      PollsReachTable(tables[..n + 1], batches[..n]);
      ReplayConcat(tables[0], Stream(batches[..n]), batches[n]);
      PublicationReplays(tables[n], tables[n + 1], batches[n]);
    }
  }

  /** Replaying what a daemon's polls published since its start gives its table. */
  lemma StreamReachesTable(tables: seq<Flows>, batches: seq<seq<Event>>, p: nat)
    requires PollRun(tables, batches) && p <= |batches|
    ensures Replay(map[], Stream(batches[..p])) == tables[p]
  {
    FirstPolls(tables, batches, p);
    PollsReachTable(tables[..p + 1], batches[..p]);
  }

  lemma RunGrows(tables: seq<Flows>, batches: seq<seq<Event>>, next: Flows, batch: seq<Event>)
    requires PollRun(tables, batches) && PollBatch(tables[|batches|], next, batch)
    ensures PollRun(tables + [next], batches + [batch])
    ensures Stream(batches + [batch]) == Stream(batches) + batch
  {
    assert (batches + [batch])[..|batches|] == batches;
  }

  /** What one poll finds: the conntrack text, the attribution of new flows, and the time. */
  datatype Poll = Poll(text: Option<seq<string>>, who: string -> Attributed, now: int)

  /** The first polls of the daemon's endless poll loop are a run, and what it has broadcast is
      the stream of that run. */
  method PollLoop(d: Daemon, codec: AddrText, polls: seq<Poll>)
    returns (ghost tables: seq<Flows>, ghost batches: seq<seq<Event>>)
    requires d.flows == map[] && d.published == []
    modifies d
    ensures PollRun(tables, batches) && |batches| == |polls|
    ensures d.published == Stream(batches) && d.flows == tables[|polls|]
  {
    tables, batches := [d.flows], [];
    for i := 0 to |polls|
      invariant PollRun(tables, batches) && |batches| == i
      invariant d.published == Stream(batches) && d.flows == tables[i] && Keyed(d.flows)
    {
      ghost var batch := d.PollOnce(codec, polls[i].text, polls[i].who, polls[i].now);
      RunGrows(tables, batches, d.flows, batch);
      tables, batches := tables + [d.flows], batches + [batch];
    }
  }

  // ------------------------------------------------------------------------ life of a flow

  /** An event fits the table it is published for: Opened for a new key, the others for a live one. */
  predicate Fits(m: Flows, event: Event) {
    match event
    case ConnectionOpened(conn) => conn.key !in m
    case ConnectionUpdated(conn) => conn.key in m
    case ConnectionClosed(key) => key in m
    case _ => true
  }

  predicate WellFormed(m: Flows, events: seq<Event>) {
    Always(Fits, m, events)
  }

  lemma OncePerKey(before: Flows, after: Flows, batch: seq<Event>, n: nat)
    requires Publication(before, after, batch) && n < |batch|
    ensures forall e :: e in batch[..n] ==> KeyOfEvent(e) != KeyOfEvent(batch[n])
  {
    var event := batch[n];
    assert batch == batch[..n] + [event] + batch[n + 1..];
    assert multiset(batch) == multiset(batch[..n]) + multiset{event} + multiset(batch[n + 1..]);
    assert multiset(batch)[event] <= 1;
    assert event !in batch[..n];
    assert forall e :: e in batch[..n] ==> e in batch;
  }

  /** Up to its event `n` a batch has not touched that event's key. */
  lemma KeyUntouched(before: Flows, after: Flows, batch: seq<Event>, n: nat)
    requires Publication(before, after, batch) && n < |batch|
    ensures Announces(batch[n], before, after)
    ensures Get(Replay(before, batch[..n]), KeyOfEvent(batch[n]).value) == Get(before, KeyOfEvent(batch[n]).value)
  {
    var event := batch[n];
    assert event in batch && Announces(event, before, after);
    OncePerKey(before, after, batch, n);
    var key := KeyOfEvent(event).value;
    ReplayAt(before, batch[..n], key);
    var e := LastWriteFrom(batch[..n], key);
  }

  lemma BatchIsWellFormed(before: Flows, after: Flows, batch: seq<Event>)
    requires Publication(before, after, batch)
    ensures WellFormed(before, batch)
  {
    forall n | 0 <= n < |batch| ensures Fits(Replay(before, batch[..n]), batch[n]) {
      KeyUntouched(before, after, batch, n);
    }
    AlwaysMeans(Fits, before, batch);
  }

  /** In every run of polls each event fits the table at the moment it is published. */
  lemma {:induction false} PollsAreWellFormed(tables: seq<Flows>, batches: seq<seq<Event>>)
    requires PollsFrom(tables, batches)
    ensures WellFormed(tables[0], Stream(batches))
    decreases |batches|
  {
    if batches == [] {
    } else {
      var n := |batches| - 1;
      FirstPolls(tables, batches, n);
      PollsAreWellFormed(tables[..n + 1], batches[..n]);
      PollsReachTable(tables[..n + 1], batches[..n]);
      BatchIsWellFormed(tables[n], tables[n + 1], batches[n]);
      AlwaysConcat(Fits, tables[0], Stream(batches[..n]), batches[n]);
    }
  }

  // -------------------------------------------------------------- when the client has room

  predicate HasReport(batch: seq<Event>) {
    exists e :: e in batch && Leaves(e).Some?
  }

  /** Every poll that reports a flow leaves a table that fits under the client's cap. */
  ghost predicate TablesFit(tables: seq<Flows>, batches: seq<seq<Event>>)
    requires |tables| == |batches| + 1
  {
    forall j :: 0 <= j < |batches| && HasReport(batches[j]) ==> |tables[j + 1]| <= MAX_CONNECTIONS
  }

  /** A key that a batch has not been about when it reports is not closed any more. */
  lemma UnwrittenStays(before: Flows, after: Flows, batch: seq<Event>, n: nat, k: string)
    requires PollBatch(before, after, batch) && n < |batch| && !batch[n].ConnectionClosed?
    requires forall e :: e in batch[..n + 1] ==> KeyOfEvent(e) != Some(k)
    ensures k in before ==> k in after
  {
    forall i | 0 <= i < |batch| && batch[i].ConnectionClosed? ensures KeyOfEvent(batch[i]) != Some(k) {
      assert i < n;
      assert batch[..n + 1][i] == batch[i];
    }
    if k in before && k !in after {
      assert Get(before, k) != Get(after, k);
      var e :| e in batch && KeyOfEvent(e) == Some(k);
      AnnouncesLeaves(e, before, after, k);
    }
  }

  /** Once a poll's closes are out, the replayed table holds nothing that the new one does not. */
  lemma ReportsStayWithin(before: Flows, after: Flows, batch: seq<Event>, n: nat)
    requires PollBatch(before, after, batch) && n < |batch| && !batch[n].ConnectionClosed?
    ensures Replay(before, batch[..n + 1]).Keys <= after.Keys
  {
    var done := batch[..n + 1];
    forall k | k in Replay(before, done) ensures k in after {
      ReplayAt(before, done, k);
      var e := LastWriteFrom(done, k);
      if LastWrite(done, k).Some? {
        AnnouncesLeaves(e, before, after, k);
      } else {
        UnwrittenStays(before, after, batch, n, k);
      }
    }
  }

  lemma LastIsReport(batch: seq<Event>, before: Flows, after: Flows)
    requires PollBatch(before, after, batch) && HasReport(batch)
    ensures batch != [] && Leaves(batch[|batch| - 1]).Some?
  {
    var e :| e in batch && Leaves(e).Some?;
    var i :| 0 <= i < |batch| && batch[i] == e;
    var last := |batch| - 1;
    assert Announces(batch[last], before, after) by {
      assert batch[last] in batch;
    }
    assert i < last && batch[last].ConnectionClosed? ==> batch[i].ConnectionClosed?;
  }

  lemma RoomyBatchFits(before: Flows, after: Flows, batch: seq<Event>)
    requires PollBatch(before, after, batch) && HasReport(batch) && Roomy(before, batch)
    ensures |after| <= MAX_CONNECTIONS
  {
    LastIsReport(batch, before, after);
    PublicationReplays(before, after, batch);
    AlwaysAt(RoomFor, before, batch, |batch| - 1);
  }

  lemma FittingBatchHasRoom(before: Flows, after: Flows, batch: seq<Event>, n: nat)
    requires PollBatch(before, after, batch) && n < |batch| && |after| <= MAX_CONNECTIONS
    ensures RoomFor(Replay(before, batch[..n]), batch[n])
  {
    if Leaves(batch[n]).Some? {
      ReportsStayWithin(before, after, batch, n);
      var done := batch[..n + 1];
      assert done[..|done| - 1] == batch[..n];
      assert Replay(before, done) == ApplyFlow(Replay(before, batch[..n]), batch[n]);
      SubsetSize(Replay(before, done).Keys, after.Keys);
      assert |Replay(before, done)| == |Replay(before, done).Keys| && |after| == |after.Keys|;
    }
  }

  /** A poll never has more flows under way than the larger of its two tables: closes go first. */
  lemma BatchRoomyIff(before: Flows, after: Flows, batch: seq<Event>)
    requires PollBatch(before, after, batch)
    ensures Roomy(before, batch) <==> (HasReport(batch) ==> |after| <= MAX_CONNECTIONS)
  {
    if !HasReport(batch) {
      forall n | 0 <= n < |batch| ensures RoomFor(Replay(before, batch[..n]), batch[n]) {
        assert batch[n] in batch;
      }
      AlwaysMeans(RoomFor, before, batch);
    } else if Roomy(before, batch) {
      RoomyBatchFits(before, after, batch);
    } else if |after| <= MAX_CONNECTIONS {
      forall n | 0 <= n < |batch| ensures RoomFor(Replay(before, batch[..n]), batch[n]) {
        FittingBatchHasRoom(before, after, batch, n);
      }
      AlwaysMeans(RoomFor, before, batch);
    }
  }

  lemma TablesFitLast(tables: seq<Flows>, batches: seq<seq<Event>>)
    requires |tables| == |batches| + 1 && batches != []
    ensures var n := |batches| - 1;
            TablesFit(tables, batches) <==>
            TablesFit(tables[..n + 1], batches[..n]) && (HasReport(batches[n]) ==> |tables[n + 1]| <= MAX_CONNECTIONS)
  {
    var n := |batches| - 1;
    assert forall j :: 0 <= j < n ==> batches[..n][j] == batches[j] && tables[..n + 1][j + 1] == tables[j + 1];
  }

  lemma LastPollRoomyIff(tables: seq<Flows>, batches: seq<seq<Event>>)
    requires PollsFrom(tables, batches) && batches != []
    ensures var n := |batches| - 1;
            Roomy(tables[0], Stream(batches)) <==>
            Roomy(tables[0], Stream(batches[..n])) && (HasReport(batches[n]) ==> |tables[n + 1]| <= MAX_CONNECTIONS)
  {
    var n := |batches| - 1;
    FirstPolls(tables, batches, n);
    PollsReachTable(tables[..n + 1], batches[..n]);
    BatchRoomyIff(tables[n], tables[n + 1], batches[n]);
    AlwaysConcat(RoomFor, tables[0], Stream(batches[..n]), batches[n]);
  }

  lemma {:induction false} PollsRoomyIff(tables: seq<Flows>, batches: seq<seq<Event>>)
    requires PollsFrom(tables, batches)
    ensures Roomy(tables[0], Stream(batches)) <==> TablesFit(tables, batches)
    decreases |batches|
  {
    if batches == [] {
    } else {
      var n := |batches| - 1;
      FirstPolls(tables, batches, n);
      PollsRoomyIff(tables[..n + 1], batches[..n]);
      LastPollRoomyIff(tables, batches);
      TablesFitLast(tables, batches);
    }
  }

  datatype Letter = O | U | C

  /** The events about one key, as letters. */
  function History(events: seq<Event>, key: string): seq<Letter>
    decreases |events|
  {
    if events == [] then []
    else
      var init, last := History(events[..|events| - 1], key), events[|events| - 1];
      if KeyOfEvent(last) != Some(key) then init
      else if last.ConnectionOpened? then init + [O]
      else if last.ConnectionUpdated? then init + [U]
      else init + [C]
  }

  /** The language (O U* C)* with a possibly unfinished last group: O stands at the start and
      right after each C, and nowhere else. */
  predicate IsLifecycle(h: seq<Letter>) {
    forall i :: 0 <= i < |h| ==> (h[i] == O <==> StartsGroup(h, i))
  }

  predicate StartsGroup(h: seq<Letter>, i: nat)
    requires i < |h|
  {
    i == 0 || h[i - 1] == C
  }

  predicate EndsLive(h: seq<Letter>) {
    h != [] && h[|h| - 1] != C
  }

  lemma LifecycleGrows(h: seq<Letter>, x: Letter)
    requires IsLifecycle(h) && (x == O <==> !EndsLive(h))
    ensures IsLifecycle(h + [x])
  {
    var g := h + [x];
    forall i | 0 <= i < |g| ensures g[i] == O <==> StartsGroup(g, i) {
      if i < |h| {
        assert h[i] == O <==> StartsGroup(h, i);
      }
    }
  }

  lemma {:induction false} WellFormedHistory(events: seq<Event>, key: string)
    requires WellFormed(map[], events)
    ensures IsLifecycle(History(events, key))
    ensures key in Replay(map[], events) <==> EndsLive(History(events, key))
    decreases |events|
  {
    if events == [] {
    } else {
      var init, last := events[..|events| - 1], events[|events| - 1];
      WellFormedHistory(init, key);
      if KeyOfEvent(last) == Some(key) {
        LifecycleGrows(History(init, key),
                       if last.ConnectionOpened? then O else if last.ConnectionUpdated? then U else C);
      }
    }
  }

  /** Over every run from the empty table each key's events are (Opened Updated* Closed)*, the
      last group possibly unfinished; it is unfinished exactly when the flow is in the table. */
  lemma LifecycleOfEveryFlow(tables: seq<Flows>, batches: seq<seq<Event>>, key: string)
    requires PollRun(tables, batches)
    ensures IsLifecycle(History(Stream(batches), key))
    ensures key in tables[|batches|] <==> EndsLive(History(Stream(batches), key))
  {
    PollsAreWellFormed(tables, batches);
    PollsReachTable(tables, batches);
    WellFormedHistory(Stream(batches), key);
  }

  // -------------------------------------------------------------------------- convergence

  /** `list` enumerates the table, in any order: the answer to GetConnections. */
  ghost predicate Lists(list: seq<ConnectionInfo>, m: Flows) {
    && DistinctKeys(list)
    && (forall i :: 0 <= i < |list| ==> list[i].key in m && m[list[i].key] == list[i])
    && (forall k :: k in m ==> exists i :: 0 <= i < |list| && list[i].key == k)
  }

  lemma ListedIsLoaded(list: seq<ConnectionInfo>, m: Flows)
    requires Lists(list, m)
    ensures Loaded(list).conns == m
    ensures Coherent(Loaded(list))
  {
    LoadedIsCoherentIffDistinct(list);
    ListedEntries(list, m);
    SameFlows(Loaded(list).conns, m);
  }

  lemma ListedEntries(list: seq<ConnectionInfo>, m: Flows)
    requires Lists(list, m)
    ensures forall k :: Get(Loaded(list).conns, k) == Get(m, k)
  {
    LoadedLists(list);
    LoadedKeepsEveryFlow(list);
    forall k ensures Get(Loaded(list).conns, k) == Get(m, k) {
      if k in m {
        var i :| 0 <= i < |list| && list[i].key == k;
        assert m[list[i].key] == list[i] && Loaded(list).conns[list[i].key] == list[i];
      }
    }
  }

  /** One session of a client: the snapshot is applied first, then the stream from the
      subscription on, event by event. */
  method Session(c: ClientState, s: Input, stream: seq<Event>)
    requires s.Snapshot?
    modifies c
    ensures c.State() == Fold(AfterSnapshot(old(c.State()), s), stream)
  {
    c.ApplySnapshot(s);
    for i := 0 to |stream|
      invariant c.State() == Fold(AfterSnapshot(old(c.State()), s), stream[..i])
    {
      c.ApplyEvent(stream[i]);
      assert stream[..i + 1][..i] == stream[..i];
    }
    assert stream[..|stream|] == stream;
  }

  /** The daemon's table after the first `n` events of the stream. */
  function TableAfter(stream: seq<Event>, n: nat): Flows
    requires n <= |stream|
  {
    Replay(map[], stream[..n])
  }

  lemma OverlappingTables(stream: seq<Event>, i: nat, k: nat, n: nat)
    requires i <= k <= n <= |stream|
    ensures Replay(TableAfter(stream, k), stream[i..n]) == TableAfter(stream, n)
  {
    var a, b, c := stream[..i], stream[i..k], stream[k..n];
    assert stream[..k] == a + b;
    assert stream[i..n] == b + c;
    assert stream[..n] == a + b + c;
    OverlapIsIdempotent(map[], a, b, c);
  }

  /** The client's map is the daemon's after each event from `k` to `n`. */
  ghost predicate Follows(start: View, stream: seq<Event>, i: nat, k: nat, n: nat)
    requires i <= k <= n <= |stream|
  {
    forall j :: k <= j <= n ==> Fold(start, stream[i..j]).conns == TableAfter(stream, j)
  }

  /** Each report from `k` to `n` leaves the daemon with a table that fits under the client's cap. */
  ghost predicate ReportsFit(stream: seq<Event>, k: nat, n: nat)
    requires k <= n <= |stream|
  {
    forall j :: k < j <= n && Leaves(stream[j - 1]).Some? ==> |TableAfter(stream, j)| <= MAX_CONNECTIONS
  }

  /** The client subscribes at event `i`, takes the flow snapshot at event `k` and has applied
      everything from `i` on when the daemon has published `n` events. Although events `i` to `k`
      were applied twice, its map is the daemon's, but for the flows its own cap threw out; and it
      is in step with the stream throughout exactly when no report that it hears takes the replayed
      table beyond that cap. */
  lemma {:induction false} ClientConverges(stream: seq<Event>, i: nat, k: nat, n: nat, v: View, s: Input)
    requires i <= k <= n <= |stream|
    requires s.Snapshot? && Lists(s.conns, TableAfter(stream, k))
    ensures var start := AfterSnapshot(v, s);
            && Fold(start, stream[i..n]).conns == TableAfter(stream, n) - Lost(start, stream[i..n])
            && (InStep(start, stream[i..n]) <==> Roomy(TableAfter(stream, k), stream[i..n]))
            && (InStep(start, stream[i..n]) ==> Follows(start, stream, i, k, n))
  {
    ListedIsLoaded(s.conns, TableAfter(stream, k));
    var start := AfterSnapshot(v, s);
    ClientIsReplayMinusLost(start, stream[i..n]);
    OverlappingTables(stream, i, k, n);
    InStepIff(start, stream[i..n]);
    if InStep(start, stream[i..n]) {
      InStepTables(stream, i, k, n, start);
    }
  }

  lemma InStepTables(stream: seq<Event>, i: nat, k: nat, n: nat, start: View)
    requires i <= k <= n <= |stream| && start.conns == TableAfter(stream, k) && InStep(start, stream[i..n])
    ensures Follows(start, stream, i, k, n)
  {
    var heard := stream[i..n];
    forall j | k <= j <= n ensures Fold(start, stream[i..j]).conns == TableAfter(stream, j) {
      OverlappingTables(stream, i, k, j);
      assert heard[..j - i] == stream[i..j];
      assert Fold(start, heard[..j - i]).conns == Replay(start.conns, heard[..j - i]);
    }
  }

  /** From the snapshot on, overlap or not, the client's map is the daemon's after each event exactly
      when it is at event `k`, once the overlap is done with, and the daemon's table fits under the
      cap after each report since. The former is certain if no report of the overlap takes the
      replayed table beyond the cap, and in any case if there is no overlap. */
  lemma {:induction false} ClientFollowsIff(stream: seq<Event>, i: nat, k: nat, n: nat, v: View, s: Input)
    requires i <= k <= n <= |stream|
    requires s.Snapshot? && Lists(s.conns, TableAfter(stream, k))
    ensures var start := AfterSnapshot(v, s);
            Follows(start, stream, i, k, n)
            <==> Fold(start, stream[i..k]).conns == TableAfter(stream, k) && ReportsFit(stream, k, n)
    ensures Roomy(TableAfter(stream, k), stream[i..k]) ==>
              (Follows(AfterSnapshot(v, s), stream, i, k, n) <==> ReportsFit(stream, k, n))
    ensures i == k ==> Roomy(TableAfter(stream, k), stream[i..k])
  {
    var start := AfterSnapshot(v, s);
    ListedIsLoaded(s.conns, TableAfter(stream, k));
    FollowsFromIff(stream, i, k, n, start);
    if Roomy(TableAfter(stream, k), stream[i..k]) {
      RoomyStaysInStep(start, stream[i..k]);
      OverlappingTables(stream, i, k, k);
    }
  }

  /** Without overlap: exactly when the daemon's table fits under the cap after each report. */
  lemma ClientConvergesIff(stream: seq<Event>, k: nat, n: nat, v: View, s: Input)
    requires k <= n <= |stream|
    requires s.Snapshot? && Lists(s.conns, TableAfter(stream, k))
    ensures Follows(AfterSnapshot(v, s), stream, k, k, n) <==> ReportsFit(stream, k, n)
  {
    ClientFollowsIff(stream, k, k, n, v, s);
  }

  lemma FollowsFromIff(stream: seq<Event>, i: nat, k: nat, n: nat, start: View)
    requires i <= k <= n <= |stream| && Coherent(IndexOf(start))
    ensures Follows(start, stream, i, k, n)
            <==> Fold(start, stream[i..k]).conns == TableAfter(stream, k) && ReportsFit(stream, k, n)
  {
    var mid := Fold(start, stream[i..k]);
    FoldKeepsCoherent(start, stream[i..k]);
    FollowsInTwo(stream, i, k, n, start);
    FitsIff(stream, k, n);
    if mid.conns == TableAfter(stream, k) {
      InStepIff(mid, stream[k..n]);
      if InStep(mid, stream[k..n]) {
        InStepTables(stream, k, k, n, mid);
      }
      if Follows(mid, stream, k, k, n) {
        FollowingIsInStep(stream, k, n, mid);
      }
    }
  }

  /** What is heard after `k` may be counted from the state at `k`. */
  lemma HeardInTwo(stream: seq<Event>, i: nat, k: nat, j: nat, start: View)
    requires i <= k <= j <= |stream|
    ensures Fold(start, stream[i..j]) == Fold(Fold(start, stream[i..k]), stream[k..j])
  {
    SplitAt(stream, i, k, j);
    FoldConcat(start, stream[i..k], stream[k..j]);
  }

  lemma SplitAt(stream: seq<Event>, i: nat, k: nat, j: nat)
    requires i <= k <= j <= |stream|
    ensures stream[i..j] == stream[i..k] + stream[k..j]
  {
  }

  lemma FollowsInTwo(stream: seq<Event>, i: nat, k: nat, n: nat, start: View)
    requires i <= k <= n <= |stream|
    ensures Follows(start, stream, i, k, n) <==> Follows(Fold(start, stream[i..k]), stream, k, k, n)
    ensures Follows(start, stream, i, k, n) ==> Fold(start, stream[i..k]).conns == TableAfter(stream, k)
  {
    var mid := Fold(start, stream[i..k]);
    if Follows(start, stream, i, k, n) {
      forall j | k <= j <= n ensures Fold(mid, stream[k..j]).conns == TableAfter(stream, j) {
        HeardInTwo(stream, i, k, j, start);
      }
    }
    if Follows(mid, stream, k, k, n) {
      forall j | k <= j <= n ensures Fold(start, stream[i..j]).conns == TableAfter(stream, j) {
        HeardInTwo(stream, i, k, j, start);
      }
    }
  }

  lemma FollowingIsInStep(stream: seq<Event>, k: nat, n: nat, start: View)
    requires k <= n <= |stream| && start.conns == TableAfter(stream, k) && Follows(start, stream, k, k, n)
    ensures InStep(start, stream[k..n])
  {
    var heard := stream[k..n];
    forall m | 0 <= m <= |heard| ensures Fold(start, heard[..m]).conns == Replay(start.conns, heard[..m]) {
      var j := k + m;
      assert heard[..m] == stream[k..j];
      assert Fold(start, stream[k..j]).conns == TableAfter(stream, j);
      OverlappingTables(stream, k, k, j);
    }
  }

  lemma NextTable(stream: seq<Event>, j: nat)
    requires j < |stream|
    ensures TableAfter(stream, j + 1) == ApplyFlow(TableAfter(stream, j), stream[j])
  {
    assert stream[..j + 1][..j] == stream[..j];
  }

  lemma HeardEvent(stream: seq<Event>, k: nat, n: nat, i: nat)
    requires k <= n <= |stream| && i < n - k
    ensures stream[k..n][i] == stream[k + i]
    ensures ApplyFlow(Replay(TableAfter(stream, k), stream[k..n][..i]), stream[k + i]) == TableAfter(stream, k + i + 1)
  {
    assert stream[k..n][..i] == stream[k..k + i];
    OverlappingTables(stream, k, k, k + i);
    NextTable(stream, k + i);
  }

  lemma RoomAt(stream: seq<Event>, k: nat, n: nat, i: nat)
    requires k <= n <= |stream| && i < n - k
    ensures var m, heard := TableAfter(stream, k), stream[k..n];
            RoomFor(Replay(m, heard[..i]), heard[i]) <==>
            (Leaves(stream[k + i]).Some? ==> |TableAfter(stream, k + i + 1)| <= MAX_CONNECTIONS)
  {
    HeardEvent(stream, k, n, i);
  }

  lemma FitsIff(stream: seq<Event>, k: nat, n: nat)
    requires k <= n <= |stream|
    ensures Roomy(TableAfter(stream, k), stream[k..n]) <==> ReportsFit(stream, k, n)
  {
    if Roomy(TableAfter(stream, k), stream[k..n]) {
      RoomLeavesFittingTables(stream, k, n);
    }
    if ReportsFit(stream, k, n) {
      FittingTablesLeaveRoom(stream, k, n);
    }
  }

  lemma RoomLeavesFittingTables(stream: seq<Event>, k: nat, n: nat)
    requires k <= n <= |stream| && Roomy(TableAfter(stream, k), stream[k..n])
    ensures ReportsFit(stream, k, n)
  {
    forall j | k < j <= n && Leaves(stream[j - 1]).Some? ensures |TableAfter(stream, j)| <= MAX_CONNECTIONS {
      RoomAt(stream, k, n, j - 1 - k);
      AlwaysAt(RoomFor, TableAfter(stream, k), stream[k..n], j - 1 - k);
    }
  }

  lemma FittingTablesLeaveRoom(stream: seq<Event>, k: nat, n: nat)
    requires k <= n <= |stream| && ReportsFit(stream, k, n)
    ensures Roomy(TableAfter(stream, k), stream[k..n])
  {
    var m, heard := TableAfter(stream, k), stream[k..n];
    forall i | 0 <= i < |heard| ensures RoomFor(Replay(m, heard[..i]), heard[i]) {
      RoomAt(stream, k, n, i);
      var j := k + i + 1;
      assert Leaves(stream[j - 1]).Some? ==> |TableAfter(stream, j)| <= MAX_CONNECTIONS;
    }
    AlwaysMeans(RoomFor, m, heard);
  }

  /** The stream that opens the listed flows. */
  function OpenedStream(conns: seq<ConnectionInfo>): seq<Event> {
    seq(|conns|, i requires 0 <= i < |conns| => ConnectionOpened(conns[i]))
  }

  lemma {:induction false} OpenedTable(conns: seq<ConnectionInfo>)
    requires DistinctKeys(conns)
    ensures Replay(map[], OpenedStream(conns)) == Loaded(conns).conns
    ensures |Loaded(conns).conns| == |conns|
    decreases |conns|
  {
    if conns == [] {
    } else {
      var init, last := conns[..|conns| - 1], conns[|conns| - 1];
      OpenedTable(init);
      LastKeyIsNew(conns);
      assert OpenedStream(conns)[..|conns| - 1] == OpenedStream(init);
      assert (Loaded(init).conns[last.key := last]).Keys == Loaded(init).conns.Keys + {last.key};
    }
  }

  lemma OpenedKeys(conns: seq<ConnectionInfo>, k: string)
    requires k in Loaded(conns).conns
    ensures exists e :: e in OpenedStream(conns) && KeyOfEvent(e) == Some(k)
  {
    LoadedLists(conns);
    assert k in Elems(Loaded(conns).order);
    var i :| 0 <= i < |conns| && Loaded(conns).order[i] == k;
    assert OpenedStream(conns)[i] in OpenedStream(conns);
  }

  lemma OpenedIsPublication(conns: seq<ConnectionInfo>)
    requires DistinctKeys(conns)
    ensures PollBatch(map[], Loaded(conns).conns, OpenedStream(conns))
  {
    var batch, table := OpenedStream(conns), Loaded(conns).conns;
    LoadedKeepsEveryFlow(conns);
    forall i, j | 0 <= i < j < |batch| ensures KeyOfEvent(batch[i]) != KeyOfEvent(batch[j]) {
      assert conns[i].key != conns[j].key;
    }
    OncePerEvent(batch);
    forall k | Get(map[], k) != Get(table, k) ensures exists e :: e in batch && KeyOfEvent(e) == Some(k) {
      OpenedKeys(conns, k);
    }
  }

  lemma {:induction false} OncePerEvent(batch: seq<Event>)
    requires forall i, j :: 0 <= i < j < |batch| ==> KeyOfEvent(batch[i]) != KeyOfEvent(batch[j])
    ensures forall e :: multiset(batch)[e] <= 1
  {
    if batch == [] {
    } else {
      OncePerEvent(batch[1..]);
      assert batch == [batch[0]] + batch[1..];
      assert multiset(batch) == multiset{batch[0]} + multiset(batch[1..]);
      assert batch[0] !in batch[1..];
    }
  }

  lemma AfterReportFits(v: View, events: seq<Event>)
    requires Coherent(IndexOf(v)) && events != [] && events[|events| - 1].ConnectionOpened?
    ensures |Fold(v, events).conns| <= MAX_CONNECTIONS
  {
    var init := events[..|events| - 1];
    FoldKeepsCoherent(v, init);
    UpsertIsFifo(Fold(v, init), events[|events| - 1].conn, true);
  }

  /** The cap at work: one poll of a daemon that has just started finds more flows than the client
      keeps. A client that subscribed before the poll has heard of every flow, and lacks some. */
  lemma CapLosesFlows(conns: seq<ConnectionInfo>, v: View, s: Input)
    requires DistinctKeys(conns) && |conns| > MAX_CONNECTIONS
    requires s.Snapshot? && s.conns == []
    ensures PollRun([map[], Loaded(conns).conns], [OpenedStream(conns)])
    ensures Fold(AfterSnapshot(v, s), OpenedStream(conns)).conns != Loaded(conns).conns
  {
    OpenedIsPublication(conns);
    OpenedTable(conns);
    LoadedIsCoherentIffDistinct(s.conns);
    AfterReportFits(AfterSnapshot(v, s), OpenedStream(conns));
  }

  /** Such flows exist: one peer has many connections to the same port of another, each under the
      key that the daemon gives it. */
  function CrowdFlow(codec: AddrText, port: nat): ParsedFlow {
    var local, remote := V4([10, 0, 0, 1]), V4([10, 0, 0, 2]);
    ParsedFlow(FlowKey(codec, Tcp, local, port, remote, 443), Tcp, local, port, remote, 443, 0, 0)
  }

  function Crowd(codec: AddrText, n: nat): seq<ConnectionInfo> {
    seq(n, (i: nat) => NewConnection(CrowdFlow(codec, 40000 + i), Attributed(None, None, None), 0))
  }

  lemma CrowdIsDistinct(codec: AddrText, n: nat)
    requires Faithful(codec)
    ensures DistinctKeys(Crowd(codec, n)) && |Crowd(codec, n)| == n
  {
    forall i, j | 0 <= i < j < n ensures Crowd(codec, n)[i].key != Crowd(codec, n)[j].key {
      if CrowdFlow(codec, 40000 + i).key == CrowdFlow(codec, 40000 + j).key {
        FlowKeyInjective(codec, CrowdFlow(codec, 40000 + i), CrowdFlow(codec, 40000 + j));
      }
    }
  }

  lemma CrowdOverflows(codec: AddrText, v: View, s: Input)
    requires Faithful(codec) && s.Snapshot? && s.conns == []
    ensures var conns := Crowd(codec, 501);
            && PollRun([map[], Loaded(conns).conns], [OpenedStream(conns)])
            && Fold(AfterSnapshot(v, s), OpenedStream(conns)).conns != Loaded(conns).conns
  {
    CrowdIsDistinct(codec, 501);
    CapLosesFlows(Crowd(codec, 501), v, s);
  }

  /** The log holds what the first `p` polls published, with any other events in between. */
  ghost predicate Broadcast(batches: seq<seq<Event>>, p: nat, log: seq<Event>)
    requires p <= |batches|
  {
    OnlyFlowEvents(log) == Stream(batches[..p])
  }

  lemma LogReachesTable(tables: seq<Flows>, batches: seq<seq<Event>>, p: nat, log: seq<Event>)
    requires PollRun(tables, batches) && p <= |batches| && Broadcast(batches, p, log)
    ensures Replay(map[], log) == tables[p]
  {
    ReplayIgnoresOthers(map[], log);
    StreamReachesTable(tables, batches, p);
  }

  lemma {:induction false} StreamSplit(batches: seq<seq<Event>>, p: nat)
    requires p <= |batches|
    ensures Stream(batches) == Stream(batches[..p]) + Stream(batches[p..])
    decreases |batches|
  {
    if p == |batches| {
      assert batches[..p] == batches && batches[p..] == [];
    } else {
      var init, last := batches[..|batches| - 1], batches[|batches| - 1];
      StreamSplit(init, p);
      assert init[..p] == batches[..p];
      assert batches[p..][..|batches[p..]| - 1] == init[p..];
    }
  }

  /** Between two moments of the log the flow events are those of the polls in between. */
  lemma LogBetweenPolls(batches: seq<seq<Event>>, p: nat, q: nat, log: seq<Event>, k: nat, n: nat)
    requires p <= q <= |batches| && k <= n <= |log|
    requires Broadcast(batches, p, log[..k]) && Broadcast(batches, q, log[..n])
    ensures OnlyFlowEvents(log[k..n]) == Stream(batches[p..q])
  {
    var before, since := Stream(batches[..p]), OnlyFlowEvents(log[k..n]);
    assert log[..n] == log[..k] + log[k..n];
    OnlyFlowEventsConcat(log[..k], log[k..n]);
    StreamSplit(batches[..q], p);
    assert batches[..q][..p] == batches[..p] && batches[..q][p..] == batches[p..q];
    assert since == (before + since)[|before|..];
    assert Stream(batches[p..q]) == (before + Stream(batches[p..q]))[|before|..];
  }

  lemma PollsInBetween(tables: seq<Flows>, batches: seq<seq<Event>>, p: nat, q: nat)
    requires PollsFrom(tables, batches) && p <= q <= |batches|
    ensures PollsFrom(tables[p..q + 1], batches[p..q])
  {
    var ts, bs := tables[p..q + 1], batches[p..q];
    forall j | 0 <= j < |bs| ensures PollBatch(ts[j], ts[j + 1], bs[j]) {
      assert PollBatch(tables[p + j], tables[p + j + 1], batches[p + j]);
    }
  }

  /** The reports of the log fit exactly when the tables after the reporting polls do. */
  lemma PolledReportsFitIff(tables: seq<Flows>, batches: seq<seq<Event>>, p: nat, q: nat,
                            log: seq<Event>, k: nat, n: nat)
    requires PollRun(tables, batches) && p <= q <= |batches| && k <= n <= |log|
    requires Broadcast(batches, p, log[..k]) && Broadcast(batches, q, log[..n])
    ensures ReportsFit(log, k, n) <==> TablesFit(tables[p..q + 1], batches[p..q])
  {
    LogReachesTable(tables, batches, p, log[..k]);
    FitsIff(log, k, n);
    FlowEventsOnly();
    AlwaysIgnoresOthers(RoomFor, tables[p], log[k..n]);
    LogBetweenPolls(batches, p, q, log, k, n);
    PollsInBetween(tables, batches, p, q);
    PollsRoomyIff(tables[p..q + 1], batches[p..q]);
  }

  /** In terms of polls: of all that the daemon broadcasts, rule, process and network events
      included, the client hears `log[i..n]`; poll `p` was the last before its snapshot and poll `q`
      the last before event `n`. If the overlap leaves room, the client's map is the daemon's at every
      moment since the snapshot exactly when every poll since that reports a flow leaves a table that
      fits under the client's cap. */
  lemma {:induction false} ClientConvergesToPoll(tables: seq<Flows>, batches: seq<seq<Event>>, p: nat, q: nat,
                                                 log: seq<Event>, i: nat, k: nat, n: nat, v: View, s: Input)
    requires PollRun(tables, batches) && p <= q <= |batches| && i <= k <= n <= |log|
    requires Broadcast(batches, p, log[..k]) && Broadcast(batches, q, log[..n])
    requires s.Snapshot? && Lists(s.conns, tables[p])
    ensures Fold(AfterSnapshot(v, s), log[i..n]).conns == tables[q] - Lost(AfterSnapshot(v, s), log[i..n])
    ensures Follows(AfterSnapshot(v, s), log, i, k, n)
            <==> Fold(AfterSnapshot(v, s), log[i..k]).conns == tables[p]
                 && TablesFit(tables[p..q + 1], batches[p..q])
    ensures Roomy(tables[p], log[i..k]) ==>
              (Follows(AfterSnapshot(v, s), log, i, k, n) <==> TablesFit(tables[p..q + 1], batches[p..q]))
  {
    LogReachesTable(tables, batches, p, log[..k]);
    LogReachesTable(tables, batches, q, log[..n]);
    PolledReportsFitIff(tables, batches, p, q, log, k, n);
    ClientConverges(log, i, k, n, v, s);
    ClientFollowsIff(log, i, k, n, v, s);
  }

  lemma FlowEventsOnly()
    ensures AboutFlows(RoomFor) && AboutFlows(Fits)
  {
  }

  /** A client whose snapshot is one poll's table, and that hears everything the daemon broadcasts
      from then on, is in step exactly when every poll that reports a flow leaves a table that fits
      under the client's cap. */
  lemma PollsInStepIff(tables: seq<Flows>, batches: seq<seq<Event>>, log: seq<Event>, v: View)
    requires PollsFrom(tables, batches) && OnlyFlowEvents(log) == Stream(batches)
    requires Coherent(IndexOf(v)) && v.conns == tables[0]
    ensures InStep(v, log) <==> TablesFit(tables, batches)
    ensures InStep(v, log) ==> Fold(v, log).conns == tables[|batches|]
  {
    FlowEventsOnly();
    InStepIff(v, log);
    AlwaysIgnoresOthers(RoomFor, tables[0], log);
    PollsRoomyIff(tables, batches);
    ReplayIgnoresOthers(tables[0], log);
    PollsReachTable(tables, batches);
    if InStep(v, log) {
      InStepAtTheEnd(v, log);
    }
  }
}
