/**
 Session totals and speeds in the client: where every counted byte is.
 */
module ClientTotals {
  import opened Types
  import opened Collections
  import opened Client
  import opened ClientIndex
  import opened ClientRules
  import opened Replication

  datatype Side = Up | Down

  function By(side: Side): ConnectionInfo -> nat {
    if side == Up then Sent else Recv
  }

  function Total(v: View, side: Side): nat {
    if side == Up then v.totalUp else v.totalDown
  }

  function Prev(v: View, side: Side): nat {
    if side == Up then v.prevUp else v.prevDown
  }

  function Speed(v: View, side: Side): nat {
    if side == Up then v.speedUp else v.speedDown
  }

  /** Bytes of the flows in the map. */
  ghost function Live(v: View, side: Side): nat {
    MapSum(v.conns, By(side))
  }

  /** Bytes that leave the map in one step: by a close, by the cap, or by a counter going back. */
  datatype Departed = Departed(closed: nat, evicted: nat, regressed: nat)

  const NOTHING: Departed := Departed(0, 0, 0)

  function Plus(a: Departed, b: Departed): Departed {
    Departed(a.closed + b.closed, a.evicted + b.evicted, a.regressed + b.regressed)
  }

  ghost function DepartedByReport(v: View, conn: ConnectionInfo, side: Side): Departed {
    Departed(
      0,
      MapSum(Restricted(v.conns[conn.key := conn], EvictedBy(v, conn)), By(side)),
      if conn.key in v.conns then SaturatingSub(By(side)(v.conns[conn.key]), By(side)(conn)) else 0)
  }

  ghost function DepartedBy(v: View, event: Event, side: Side): Departed {
    match event
    case ConnectionOpened(conn) => DepartedByReport(v, conn, side)
    case ConnectionUpdated(conn) => DepartedByReport(v, conn, side)
    case ConnectionClosed(key) => Departed(if key in v.conns then By(side)(v.conns[key]) else 0, 0, 0)
    case _ => NOTHING
  }

  /** Everything that left the map over a run of events and ticks. */
  ghost function DepartedIn(v: View, inputs: seq<Input>, side: Side): Departed
    decreases |inputs|
  {
    if inputs == [] then NOTHING
    else
      var init, last := inputs[..|inputs| - 1], inputs[|inputs| - 1];
      var before := DepartedIn(v, init, side);
      if last.Streamed? then Plus(before, DepartedBy(Run(v, init), last.event, side)) else before
  }

  predicate NoSnapshot(inputs: seq<Input>) {
    forall i :: 0 <= i < |inputs| ==> !inputs[i].Snapshot?
  }

  lemma UpsertTotal(v: View, conn: ConnectionInfo, isOpen: bool, side: Side)
    ensures Total(Upsert(v, conn, isOpen), side) == Total(v, side) + Delta(v.conns, conn, By(side))
  {
  }

  lemma StoredSum(conns: Flows, conn: ConnectionInfo, f: ConnectionInfo -> nat)
    ensures MapSum(conns[conn.key := conn], f) + (if conn.key in conns then f(conns[conn.key]) else 0)
            == MapSum(conns, f) + f(conn)
  {
    MapSumUpdate(conns, f, conn.key, conn);
    MapSumRemove(conns, f, conn.key);
  }

  lemma LiveAfterReport(v: View, conn: ConnectionInfo, isOpen: bool, side: Side)
    requires Coherent(IndexOf(v))
    ensures Live(Upsert(v, conn, isOpen), side) + DepartedByReport(v, conn, side).evicted
            == MapSum(v.conns[conn.key := conn], By(side))
  {
    UpsertKeepsAllButEvicted(v, conn, isOpen);
    MapSumPartition(v.conns[conn.key := conn], EvictedBy(v, conn), By(side));
  }

  lemma ReportBalances(v: View, conn: ConnectionInfo, isOpen: bool, side: Side)
    requires Coherent(IndexOf(v))
    ensures var w, d := Upsert(v, conn, isOpen), DepartedByReport(v, conn, side);
            Total(w, side) + Live(v, side)
            == Total(v, side) + Live(w, side) + d.closed + d.evicted + d.regressed
  {
    LiveAfterReport(v, conn, isOpen, side);
    StoredSum(v.conns, conn, By(side));
    UpsertTotal(v, conn, isOpen, side);
  }

  lemma EventBalances(v: View, event: Event, side: Side)
    requires Coherent(IndexOf(v))
    ensures var w, d := AfterEvent(v, event), DepartedBy(v, event, side);
            Total(w, side) + Live(v, side)
            == Total(v, side) + Live(w, side) + d.closed + d.evicted + d.regressed
    ensures Total(v, side) <= Total(AfterEvent(v, event), side)
    ensures Prev(AfterEvent(v, event), side) == Prev(v, side)
  {
    match event
    case ConnectionOpened(conn) => ReportBalances(v, conn, true, side);
    case ConnectionUpdated(conn) => ReportBalances(v, conn, false, side);
    case ConnectionClosed(key) => MapSumRemove(v.conns, By(side), key);
    case _ =>
  }

  lemma StepBalances(v: View, input: Input, side: Side, d: Departed)
    requires Coherent(IndexOf(v)) && !input.Snapshot?
    requires d == if input.Streamed? then DepartedBy(v, input.event, side) else NOTHING
    ensures Total(After(v, input), side) + Live(v, side)
            == Total(v, side) + Live(After(v, input), side) + d.closed + d.evicted + d.regressed
    ensures Total(v, side) <= Total(After(v, input), side)
    ensures Coherent(IndexOf(After(v, input)))
  {
    if input.Streamed? {
      EventBalances(v, input.event, side);
      EventKeepsCoherent(v, input.event);
    }
  }

  lemma {:induction false} RunKeepsCoherent(v: View, inputs: seq<Input>)
    requires Coherent(IndexOf(v)) && NoSnapshot(inputs)
    ensures Coherent(IndexOf(Run(v, inputs)))
    decreases |inputs|
  {
    if inputs == [] {
    } else {
      var init, last := inputs[..|inputs| - 1], inputs[|inputs| - 1];
      RunKeepsCoherent(v, init);
      StepBalances(Run(v, init), last, Up,
                   if last.Streamed? then DepartedBy(Run(v, init), last.event, Up) else NOTHING);
    }
  }

  /** Conservation over every run between snapshots, evictions and falling counters included. */
  lemma {:induction false} TotalsBalance(v: View, inputs: seq<Input>, side: Side)
    requires Coherent(IndexOf(v)) && NoSnapshot(inputs) && Total(v, side) == Live(v, side)
    ensures var w, d := Run(v, inputs), DepartedIn(v, inputs, side);
            Total(w, side) == Live(w, side) + d.closed + d.evicted + d.regressed
    decreases |inputs|
  {
    if inputs == [] {
    } else {
      var init, last := inputs[..|inputs| - 1], inputs[|inputs| - 1];
      TotalsBalance(v, init, side);
      RunKeepsCoherent(v, init);
      StepBalances(Run(v, init), last, side,
                   if last.Streamed? then DepartedBy(Run(v, init), last.event, side) else NOTHING);
    }
  }

  lemma {:induction false} LoadedSum(conns: seq<ConnectionInfo>, f: ConnectionInfo -> nat)
    requires DistinctKeys(conns)
    ensures MapSum(Loaded(conns).conns, f) == Sum(conns, f)
    decreases |conns|
  {
    if conns == [] {
    } else {
      var init, last := conns[..|conns| - 1], conns[|conns| - 1];
      LoadedSum(init, f);
      LastKeyIsNew(conns);
      assert conns == init + [last];
      SumAppend(init, [last], f);
      assert [last][1..] == [];
      MapSumUpdate(Loaded(init).conns, f, last.key, last);
    }
  }

  /** Right after a snapshot with distinct keys the totals are the bytes of the live flows. */
  lemma SnapshotTotals(v: View, s: Input, side: Side)
    requires s.Snapshot? && DistinctKeys(s.conns)
    ensures Total(AfterSnapshot(v, s), side) == Live(AfterSnapshot(v, s), side)
    ensures Prev(AfterSnapshot(v, s), side) == Total(AfterSnapshot(v, s), side)
    ensures Coherent(IndexOf(AfterSnapshot(v, s)))
  {
    LoadedIsCoherentIffDistinct(s.conns);
    LoadedSum(s.conns, By(side));
  }

  /** In every run from a distinct-key snapshot the totals are at least the live sum, and they are
      the live sum plus the last-seen bytes of the closed flows exactly when no bytes were evicted
      and no counter went back. */
  lemma {:induction false} SessionConservation(v: View, s: Input, inputs: seq<Input>, side: Side)
    requires s.Snapshot? && DistinctKeys(s.conns) && NoSnapshot(inputs)
    ensures var start := AfterSnapshot(v, s);
            var w, d := Run(start, inputs), DepartedIn(start, inputs, side);
            && Total(w, side) >= Live(w, side)
            && (Total(w, side) == Live(w, side) + d.closed <==> d.evicted == 0 && d.regressed == 0)
  {
    SnapshotTotals(v, s, side);
    TotalsBalance(AfterSnapshot(v, s), inputs, side);
  }

  lemma {:induction false} TotalsNeverFall(v: View, inputs: seq<Input>, n: nat, side: Side)
    requires Coherent(IndexOf(v)) && NoSnapshot(inputs) && n <= |inputs|
    ensures Total(Run(v, inputs[..n]), side) <= Total(Run(v, inputs), side)
    decreases |inputs|
  {
    if n == |inputs| {
      assert inputs[..n] == inputs;
    } else {
      var init, last := inputs[..|inputs| - 1], inputs[|inputs| - 1];
      TotalsNeverFall(v, init, n, side);
      assert init[..n] == inputs[..n];
      RunKeepsCoherent(v, init);
      StepBalances(Run(v, init), last, side,
                   if last.Streamed? then DepartedBy(Run(v, init), last.event, side) else NOTHING);
    }
  }

  // ------------------------------------------------------------------------------- speeds

  /** The speeds shown by the ticks of a run, summed up. */
  function SpeedsShown(v: View, inputs: seq<Input>, side: Side): nat
    decreases |inputs|
  {
    if inputs == [] then 0
    else
      var init, last := inputs[..|inputs| - 1], inputs[|inputs| - 1];
      SpeedsShown(v, init, side) + if last.Tick? then Speed(Run(v, inputs), side) else 0
  }

  lemma TickSamples(v: View, side: Side)
    requires Prev(v, side) <= Total(v, side)
    ensures var w := AfterTick(v);
            && Speed(w, side) == Total(v, side) - Prev(v, side)
            && Total(w, side) == Prev(w, side) == Total(v, side)
  {
  }

  lemma {:induction false} SpeedsAddUp(v: View, inputs: seq<Input>, side: Side)
    requires Coherent(IndexOf(v)) && NoSnapshot(inputs) && Prev(v, side) == Total(v, side)
    ensures var w := Run(v, inputs);
            && Prev(w, side) <= Total(w, side)
            && Total(v, side) + SpeedsShown(v, inputs, side) == Prev(w, side)
    decreases |inputs|
  {
    if inputs == [] {
    } else {
      var init, last := inputs[..|inputs| - 1], inputs[|inputs| - 1];
      SpeedsAddUp(v, init, side);
      RunKeepsCoherent(v, init);
      if last.Tick? {
        TickSamples(Run(v, init), side);
      } else if last.Streamed? {
        EventBalances(Run(v, init), last.event, side);
      }
    }
  }

  /** The speeds shown since a snapshot plus what the next tick would show are the growth of the
      total since the snapshot: no byte is shown twice and none is skipped. */
  lemma {:induction false} SpeedsAccountForGrowth(v: View, s: Input, inputs: seq<Input>, side: Side)
    requires s.Snapshot? && DistinctKeys(s.conns) && NoSnapshot(inputs)
    ensures var start := AfterSnapshot(v, s);
            var w := Run(start, inputs);
            SpeedsShown(start, inputs, side) + Speed(AfterTick(w), side) == Total(w, side) - Total(start, side)
  {
    SnapshotTotals(v, s, side);
    var start := AfterSnapshot(v, s);
    SpeedsAddUp(start, inputs, side);
    TickSamples(Run(start, inputs), side);
  }

  // --------------------------------------------------------------------- speeds of one app

  function AppTotal(app: AppEntry, side: Side): nat {
    if side == Up then app.bytesSent else app.bytesRecv
  }

  function AppPrev(app: AppEntry, side: Side): nat {
    if side == Up then app.prevSent else app.prevRecv
  }

  function AppSpeed(app: AppEntry, side: Side): nat {
    if side == Up then app.speedUp else app.speedDown
  }

  /** The app is listed at every moment of the run. */
  ghost predicate ListedThroughout(v: View, inputs: seq<Input>, a: string) {
    forall n :: 0 <= n <= |inputs| ==> a in Run(v, inputs[..n]).apps
  }

  function AppShown(v: View, inputs: seq<Input>, a: string, side: Side): nat
    decreases |inputs|
  {
    if inputs == [] then 0
    else
      var w := Run(v, inputs);
      AppShown(v, inputs[..|inputs| - 1], a, side)
      + if inputs[|inputs| - 1].Tick? && a in w.apps then AppSpeed(w.apps[a], side) else 0
  }

  lemma RefreshKeepsNumbers(apps: map<string, AppEntry>, rules: seq<Rule>, a: string, side: Side)
    requires a in apps && a in Refreshed(apps, rules)
    ensures AppTotal(Refreshed(apps, rules)[a], side) == AppTotal(apps[a], side)
    ensures AppPrev(Refreshed(apps, rules)[a], side) == AppPrev(apps[a], side)
  {
    WithBlockedAppsOwner(apps, rules, a);
  }

  lemma ReportKeepsSample(v: View, conn: ConnectionInfo, isOpen: bool, a: string, side: Side)
    requires a in v.apps
    ensures AppPrev(Upsert(v, conn, isOpen).apps[a], side) == AppPrev(v.apps[a], side)
    ensures AppTotal(Upsert(v, conn, isOpen).apps[a], side) >= AppTotal(v.apps[a], side)
  {
  }

  lemma CloseKeepsNumbers(apps: map<string, AppEntry>, key: string, a: string, side: Side)
    requires a in apps && a in Released(apps, key)
    ensures AppPrev(Released(apps, key)[a], side) == AppPrev(apps[a], side)
    ensures AppTotal(Released(apps, key)[a], side) == AppTotal(apps[a], side)
  {
  }

  lemma EventKeepsSample(v: View, event: Event, a: string, side: Side)
    requires a in v.apps && a in AfterEvent(v, event).apps
    ensures AppPrev(AfterEvent(v, event).apps[a], side) == AppPrev(v.apps[a], side)
    ensures AppTotal(AfterEvent(v, event).apps[a], side) >= AppTotal(v.apps[a], side)
  {
    if event.ConnectionOpened? || event.ConnectionUpdated? {
      ReportKeepsSample(v, event.conn, event.ConnectionOpened?, a, side);
    } else if event.ConnectionClosed? {
      if event.key in v.conns {
        CloseKeepsNumbers(v.apps, AppKeyOf(v.conns[event.key]), a, side);
      }
    } else if event.RuleAdded? || event.RuleRemoved? {
      RefreshKeepsNumbers(v.apps, RulesAfter(v.rules, event), a, side);
    }
  }

  lemma TickSamplesApp(app: AppEntry, side: Side)
    requires AppPrev(app, side) <= AppTotal(app, side)
    ensures AppSpeed(TickedApp(app), side) == AppTotal(app, side) - AppPrev(app, side)
    ensures AppPrev(TickedApp(app), side) == AppTotal(TickedApp(app), side) == AppTotal(app, side)
  {
  }

  /** While an app stays listed, the speeds shown for it and what the next tick would show are the
      growth of its counter. */
  lemma {:induction false} AppSpeedsAccountForGrowth(v: View, inputs: seq<Input>, a: string, side: Side)
    requires NoSnapshot(inputs) && ListedThroughout(v, inputs, a)
    requires a in v.apps && AppPrev(v.apps[a], side) <= AppTotal(v.apps[a], side)
    ensures a in Run(v, inputs).apps
    ensures var app := Run(v, inputs).apps[a];
            && AppPrev(app, side) <= AppTotal(app, side)
            && AppPrev(v.apps[a], side) + AppShown(v, inputs, a, side) == AppPrev(app, side)
            && AppSpeed(TickedApp(app), side) == AppTotal(app, side) - AppPrev(app, side)
    decreases |inputs|
  {
    assert inputs[..|inputs|] == inputs;
    if inputs == [] {
    } else {
      var init, last := inputs[..|inputs| - 1], inputs[|inputs| - 1];
      assert forall n :: 0 <= n <= |init| ==> init[..n] == inputs[..n];
      AppSpeedsAccountForGrowth(v, init, a, side);
      var w := Run(v, init);
      if last.Tick? {
        TickSamplesApp(w.apps[a], side);
      } else if last.Streamed? {
        EventKeepsSample(w, last.event, a, side);
      }
    }
    TickSamplesApp(Run(v, inputs).apps[a], side);
  }

  // ------------------------------------------------------------ what moves speeds and samples

  /** The speed that the last tick of a run showed, 0 before the first. */
  function LastShown(inputs: seq<Input>, side: Side): nat
    decreases |inputs|
  {
    if inputs == [] then 0
    else
      var init := inputs[..|inputs| - 1];
      if inputs[|inputs| - 1].Tick? then SaturatingSub(Total(Run(EMPTY, init), side), Prev(Run(EMPTY, init), side))
      else LastShown(init, side)
  }

  lemma StepSpeed(v: View, input: Input, side: Side)
    ensures Speed(After(v, input), side) ==
            if input.Tick? then SaturatingSub(Total(v, side), Prev(v, side)) else Speed(v, side)
    ensures Prev(After(v, input), side) ==
            if input.Tick? then Total(v, side)
            else if input.Snapshot? then Total(After(v, input), side) else Prev(v, side)
  {
    if input.Streamed? {
      EventSpeed(v, input.event, side);
    }
  }

  lemma EventSpeed(v: View, event: Event, side: Side)
    ensures Speed(AfterEvent(v, event), side) == Speed(v, side) && Prev(AfterEvent(v, event), side) == Prev(v, side)
  {
  }

  /** In every run the speed on show is the growth between the last two samples at the last tick: no
      event and no snapshot moves it. */
  lemma {:induction false} SpeedIsOfLastTick(inputs: seq<Input>, side: Side)
    ensures Speed(Run(EMPTY, inputs), side) == LastShown(inputs, side)
    decreases |inputs|
  {
    if inputs == [] {
    } else {
      var init, last := inputs[..|inputs| - 1], inputs[|inputs| - 1];
      SpeedIsOfLastTick(init, side);
      StepSpeed(Run(EMPTY, init), last, side);
    }
  }

  lemma NewcomerStartsAtZero(v: View, event: Event, a: string, side: Side)
    requires a !in v.apps && a in AfterEvent(v, event).apps
    ensures var app := AfterEvent(v, event).apps[a];
            && AppPrev(app, side) == 0 && AppSpeed(app, side) == 0
            && AppTotal(app, side) ==
               if Leaves(event).Some? then Delta(v.conns, Leaves(event).value, By(side)) else 0
  {
    if event.RuleAdded? || event.RuleRemoved? {
      WithBlockedAppsOwner(v.apps, RulesAfter(v.rules, event), a);
      OwnerIsNew(RulesAfter(v.rules, event), a);
    }
  }

  lemma {:induction false} OwnerIsNew(rules: seq<Rule>, key: string)
    ensures var owner := Owner(None, rules, key);
            owner.Some? ==> owner.value == NewApp(owner.value.name, owner.value.exe)
    decreases |rules|
  {
    if rules == [] {
    } else {
      OwnerIsNew(rules[1..], key);
    }
  }

  lemma EventKeepsAppSpeed(v: View, event: Event, a: string, side: Side)
    requires a in v.apps && a in AfterEvent(v, event).apps
    ensures AppSpeed(AfterEvent(v, event).apps[a], side) == AppSpeed(v.apps[a], side)
  {
    if event.RuleAdded? || event.RuleRemoved? {
      WithBlockedAppsOwner(v.apps, RulesAfter(v.rules, event), a);
    }
  }

  lemma SnapshotSamplesApps(v: View, s: Input, a: string, side: Side)
    requires s.Snapshot? && a in AfterSnapshot(v, s).apps
    ensures var app := AfterSnapshot(v, s).apps[a];
            AppPrev(app, side) == AppTotal(app, side) && AppSpeed(app, side) == 0
  {
    WithBlockedAppsOwner(LoadedApps(s.top), s.rules, a);
    OwnerIsNew(s.rules, a);
    if a in LoadedApps(s.top) {
      LoadedAppIsIdle(s.top, a, side);
    }
  }

  lemma {:induction false} LoadedAppIsIdle(top: seq<AppUsage>, a: string, side: Side)
    requires a in LoadedApps(top)
    ensures AppSpeed(LoadedApps(top)[a], side) == 0
    decreases |top|
  {
    var last := top[|top| - 1];
    if a == AppKey(last.exe, last.name) {
    } else {
      LoadedAppIsIdle(top[..|top| - 1], a, side);
    }
  }

  /** What one input does to the speed and the sample of an app. */
  ghost predicate AppMoves(v: View, input: Input, a: string, side: Side)
    requires a in After(v, input).apps
  {
    var app := After(v, input).apps[a];
    match input
    case Snapshot(_, _, _, _, _) => AppPrev(app, side) == AppTotal(app, side) && AppSpeed(app, side) == 0
    case Tick =>
      && a in v.apps && AppPrev(app, side) == AppTotal(app, side) == AppTotal(v.apps[a], side)
      && AppSpeed(app, side) == SaturatingSub(AppTotal(v.apps[a], side), AppPrev(v.apps[a], side))
    case Streamed(event) =>
      if a in v.apps then
        && AppPrev(app, side) == AppPrev(v.apps[a], side) && AppSpeed(app, side) == AppSpeed(v.apps[a], side)
        && AppTotal(app, side) >= AppTotal(v.apps[a], side)
      else
        AppPrev(app, side) == 0 && AppSpeed(app, side) == 0
    case Disconnected => a in v.apps && app == v.apps[a]
  }

  lemma StepMovesApp(v: View, input: Input, a: string, side: Side)
    requires a in After(v, input).apps
    ensures AppMoves(v, input, a, side)
  {
    match input
    case Snapshot(_, _, _, _, _) => SnapshotSamplesApps(v, input, a, side);
    case Streamed(event) =>
      if a in v.apps {
        EventKeepsSample(v, event, a, side);
        EventKeepsAppSpeed(v, event, a, side);
      } else {
        NewcomerStartsAtZero(v, event, a, side);
      }
    case _ =>
  }

  /** In every run an app's last sample is never above its counter. */
  lemma {:induction false} AppSamplesInEveryRun(inputs: seq<Input>, a: string, side: Side)
    requires a in Run(EMPTY, inputs).apps
    ensures AppPrev(Run(EMPTY, inputs).apps[a], side) <= AppTotal(Run(EMPTY, inputs).apps[a], side)
    decreases |inputs|
  {
    if inputs == [] {
    } else {
      var init, last := inputs[..|inputs| - 1], inputs[|inputs| - 1];
      StepMovesApp(Run(EMPTY, init), last, a, side);
      if a in Run(EMPTY, init).apps {
        AppSamplesInEveryRun(init, a, side);
      }
    }
  }

  // -------------------------------------------------------- bytes of the apps and the total

  function AppSent(app: AppEntry): nat { app.bytesSent }

  function AppRecv(app: AppEntry): nat { app.bytesRecv }

  function AppBy(side: Side): AppEntry -> nat {
    if side == Up then AppSent else AppRecv
  }

  /** Bytes of the listed apps. */
  ghost function Listed(apps: map<string, AppEntry>, side: Side): nat {
    MapSum(apps, AppBy(side))
  }

  /** Bytes of the apps that leave the list in one step. */
  ghost function Unlisted(before: map<string, AppEntry>, after: map<string, AppEntry>, side: Side): nat {
    MapSum(Restricted(before, before.Keys - after.Keys), AppBy(side))
  }

  /** ... and over a whole run. */
  ghost function UnlistedIn(v: View, inputs: seq<Input>, side: Side): nat
    decreases |inputs|
  {
    if inputs == [] then 0
    else
      var init := inputs[..|inputs| - 1];
      UnlistedIn(v, init, side) + Unlisted(Run(v, init).apps, Run(v, inputs).apps, side)
  }

  /** A step that leaves the counters of the apps it keeps and brings in only apps without bytes. */
  ghost predicate KeepsBytes(before: map<string, AppEntry>, after: map<string, AppEntry>, side: Side) {
    forall a :: a in after ==> AppBy(side)(after[a]) == if a in before then AppBy(side)(before[a]) else 0
  }

  lemma KeptBytesBalance(before: map<string, AppEntry>, after: map<string, AppEntry>, side: Side)
    requires KeepsBytes(before, after, side)
    ensures Listed(before, side) == Listed(after, side) + Unlisted(before, after, side)
  {
    var gone, added := before.Keys - after.Keys, after.Keys - before.Keys;
    MapSumPartition(before, gone, AppBy(side));
    MapSumPartition(after, added, AppBy(side));
    MapSumZero(Restricted(after, added), AppBy(side));
    MapSumSame(before - gone, after - added, AppBy(side));
  }

  lemma ReportBytes(v: View, conn: ConnectionInfo, isOpen: bool, side: Side)
    ensures var apps := Upsert(v, conn, isOpen).apps;
            && Listed(apps, side) == Listed(v.apps, side) + Delta(v.conns, conn, By(side))
            && Unlisted(v.apps, apps, side) == 0
  {
    var a, app := AppKeyOf(conn), UpsertedApp(v, conn, isOpen);
    MapSumUpdate(v.apps, AppBy(side), a, app);
    MapSumRemove(v.apps, AppBy(side), a);
    assert v.apps.Keys - v.apps[a := app].Keys == {};
    assert Restricted(v.apps, {}) == map[];
  }

  lemma {:induction false} OwnerHasNoBytes(rules: seq<Rule>, key: string)
    ensures var owner := Owner(None, rules, key);
            owner.Some? ==> owner.value.bytesSent == 0 && owner.value.bytesRecv == 0
    decreases |rules|
  {
    if rules == [] {
    } else {
      OwnerHasNoBytes(rules[1..], key);
    }
  }

  lemma RefreshKeepsBytes(apps: map<string, AppEntry>, rules: seq<Rule>, side: Side)
    ensures KeepsBytes(apps, Refreshed(apps, rules), side)
  {
    forall a | a in Refreshed(apps, rules)
      ensures AppBy(side)(Refreshed(apps, rules)[a]) == if a in apps then AppBy(side)(apps[a]) else 0
    {
      if a in apps {
        RefreshKeepsNumbers(apps, rules, a, side);
      } else {
        WithBlockedAppsOwner(apps, rules, a);
        OwnerHasNoBytes(rules, a);
      }
    }
  }

  lemma CloseKeepsBytes(apps: map<string, AppEntry>, key: string, side: Side)
    ensures KeepsBytes(apps, Released(apps, key), side)
  {
    forall a | a in Released(apps, key) ensures AppBy(side)(Released(apps, key)[a]) == AppBy(side)(apps[a]) {
      CloseKeepsNumbers(apps, key, a, side);
    }
  }

  /** What happens to the bytes of the apps and to the total in one step. */
  ghost predicate BytesBalance(v: View, w: View, side: Side) {
    Total(w, side) + Listed(v.apps, side) == Total(v, side) + Listed(w.apps, side) + Unlisted(v.apps, w.apps, side)
  }

  lemma QuietBytesBalance(v: View, w: View, side: Side)
    requires KeepsBytes(v.apps, w.apps, side) && Total(w, side) == Total(v, side)
    ensures BytesBalance(v, w, side)
  {
    KeptBytesBalance(v.apps, w.apps, side);
  }

  lemma EventBytesBalance(v: View, event: Event, side: Side)
    ensures BytesBalance(v, AfterEvent(v, event), side)
  {
    if event.ConnectionOpened? || event.ConnectionUpdated? {
      UpsertTotal(v, event.conn, event.ConnectionOpened?, side);
      ReportBytes(v, event.conn, event.ConnectionOpened?, side);
    } else {
      QuietEventKeepsBytes(v, event, side);
      QuietBytesBalance(v, AfterEvent(v, event), side);
    }
  }

  lemma QuietEventKeepsBytes(v: View, event: Event, side: Side)
    requires !event.ConnectionOpened? && !event.ConnectionUpdated?
    ensures KeepsBytes(v.apps, AfterEvent(v, event).apps, side)
    ensures Total(AfterEvent(v, event), side) == Total(v, side)
  {
    if event.ConnectionClosed? {
      if event.key in v.conns {
        CloseKeepsBytes(v.apps, AppKeyOf(v.conns[event.key]), side);
      }
    } else if event.RuleAdded? || event.RuleRemoved? {
      RefreshKeepsBytes(v.apps, RulesAfter(v.rules, event), side);
    }
  }

  /** Over every run between snapshots: the session total grows by as much as the bytes of the apps,
      listed or gone from the list, so the two accounts of the same traffic never drift apart. */
  lemma {:induction false} AppBytesBalance(v: View, inputs: seq<Input>, side: Side)
    requires NoSnapshot(inputs)
    ensures Total(Run(v, inputs), side) + Listed(v.apps, side)
            == Total(v, side) + Listed(Run(v, inputs).apps, side) + UnlistedIn(v, inputs, side)
    decreases |inputs|
  {
    if inputs == [] {
    } else {
      var init, last := inputs[..|inputs| - 1], inputs[|inputs| - 1];
      AppBytesBalance(v, init, side);
      if last.Streamed? {
        EventBytesBalance(Run(v, init), last.event, side);
      } else {
        QuietBytesBalance(Run(v, init), After(Run(v, init), last), side);
      }
    }
  }
}
