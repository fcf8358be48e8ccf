/**
 What the plain fields of the client say about its history: who set them last, and where the names
 of the listed apps come from.
 */
module ClientHistory {
  import opened Types
  import opened Client
  import opened ClientRules

  // ------------------------------------------------------------------ the last to set a field

  /** What an input says about whether the daemon is connected, if anything. */
  function SaysConnected(input: Input): Option<bool> {
    match input
    case Snapshot(_, _, _, _, _) => Some(true)
    case Disconnected => Some(false)
    case _ => None
  }

  function SaysPaused(input: Input): Option<bool> {
    match input
    case Snapshot(status, _, _, _, _) => Some(status.paused)
    case Streamed(PausedChanged(paused)) => Some(paused)
    case _ => None
  }

  function SaysNetwork(input: Input): Option<NetworkInfo> {
    match input
    case Snapshot(_, network, _, _, _) => Some(network)
    case Streamed(NetworkChanged(network)) => Some(network)
    case _ => None
  }

  function SaysStatus(input: Input): Option<Status> {
    match input
    case Snapshot(status, _, _, _, _) => Some(status)
    case _ => None
  }

  /** What was said last, if anything ever was. */
  function Latest<T>(inputs: seq<Input>, says: Input -> Option<T>): Option<T>
    decreases |inputs|
  {
    if inputs == [] then None
    else if says(inputs[|inputs| - 1]).Some? then says(inputs[|inputs| - 1])
    else Latest(inputs[..|inputs| - 1], says)
  }

  function OrFalse(said: Option<bool>): bool {
    said.Some? && said.value
  }

  /** The ticks since the last snapshot. */
  function TicksSince(inputs: seq<Input>): nat
    decreases |inputs|
  {
    if inputs == [] || inputs[|inputs| - 1].Snapshot? then 0
    else TicksSince(inputs[..|inputs| - 1]) + if inputs[|inputs| - 1].Tick? then 1 else 0
  }

  lemma StepSays(v: View, input: Input)
    ensures After(v, input).connected == if SaysConnected(input).Some? then SaysConnected(input).value else v.connected
    ensures After(v, input).paused == if SaysPaused(input).Some? then SaysPaused(input).value else v.paused
    ensures After(v, input).network == if SaysNetwork(input).Some? then SaysNetwork(input) else v.network
  {
    match input
    case Streamed(event) => EventSays(v, event);
    case _ =>
  }

  lemma StepConnected(v: View, input: Input)
    ensures After(v, input).connected == if SaysConnected(input).Some? then SaysConnected(input).value else v.connected
  {
    StepSays(v, input);
  }

  lemma EventSays(v: View, event: Event)
    ensures AfterEvent(v, event).connected == v.connected && AfterEvent(v, event).status == v.status
    ensures AfterEvent(v, event).paused == if event.PausedChanged? then event.paused else v.paused
    ensures AfterEvent(v, event).network == if event.NetworkChanged? then Some(event.network) else v.network
  {
  }

  lemma StepStatus(v: View, input: Input)
    ensures After(v, input).status ==
            if input.Snapshot? then Some(input.status)
            else if input.Tick? && v.status.Some? then
              Some(v.status.value.(uptimeSecs := v.status.value.uptimeSecs + 1))
            else v.status
  {
    if input.Streamed? {
      EventSays(v, input.event);
    }
  }

  lemma LatestMore<T>(init: seq<Input>, last: Input, says: Input -> Option<T>)
    ensures Latest(init + [last], says) == if says(last).Some? then says(last) else Latest(init, says)
  {
    assert (init + [last])[..|init|] == init;
  }

  lemma ConnectedMore(inputs: seq<Input>)
    requires inputs != []
    ensures Run(EMPTY, inputs).connected ==
            var said := SaysConnected(inputs[|inputs| - 1]);
            if said.Some? then said.value else Run(EMPTY, inputs[..|inputs| - 1]).connected
  {
    StepConnected(Run(EMPTY, inputs[..|inputs| - 1]), inputs[|inputs| - 1]);
  }

  lemma {:induction false} ConnectedIsLatest(inputs: seq<Input>)
    ensures Run(EMPTY, inputs).connected == OrFalse(Latest(inputs, SaysConnected))
    decreases |inputs|
  {
    if inputs == [] {
    } else {
      ConnectedIsLatest(inputs[..|inputs| - 1]);
      ConnectedMore(inputs);
    }
  }

  lemma {:induction false} PausedIsLatest(inputs: seq<Input>)
    ensures Run(EMPTY, inputs).paused == OrFalse(Latest(inputs, SaysPaused))
    decreases |inputs|
  {
    if inputs == [] {
    } else {
      var init, last := inputs[..|inputs| - 1], inputs[|inputs| - 1];
      PausedIsLatest(init);
      StepSays(Run(EMPTY, init), last);
      assert inputs == init + [last];
      LatestMore(init, last, SaysPaused);
    }
  }

  lemma {:induction false} NetworkIsLatest(inputs: seq<Input>)
    ensures Run(EMPTY, inputs).network == Latest(inputs, SaysNetwork)
    decreases |inputs|
  {
    if inputs == [] {
    } else {
      var init, last := inputs[..|inputs| - 1], inputs[|inputs| - 1];
      NetworkIsLatest(init);
      StepSays(Run(EMPTY, init), last);
      assert inputs == init + [last];
      LatestMore(init, last, SaysNetwork);
    }
  }

  /** The status is that of the last snapshot, with one more second of uptime for each tick since. */
  function ExpectedStatus(inputs: seq<Input>): Option<Status> {
    match Latest(inputs, SaysStatus)
    case None => None
    case Some(status) => Some(status.(uptimeSecs := status.uptimeSecs + TicksSince(inputs)))
  }

  lemma ExpectedMore(init: seq<Input>, last: Input)
    ensures var now := ExpectedStatus(init);
            ExpectedStatus(init + [last]) ==
            if last.Snapshot? then Some(last.status)
            else if last.Tick? && now.Some? then Some(now.value.(uptimeSecs := now.value.uptimeSecs + 1))
            else now
  {
    LatestMore(init, last, SaysStatus);
    assert (init + [last])[..|init|] == init;
  }

  lemma {:induction false} StatusIsLatest(inputs: seq<Input>)
    ensures Run(EMPTY, inputs).status == ExpectedStatus(inputs)
    decreases |inputs|
  {
    if inputs == [] {
    } else {
      var init, last := inputs[..|inputs| - 1], inputs[|inputs| - 1];
      StatusIsLatest(init);
      StepStatus(Run(EMPTY, init), last);
      assert inputs == init + [last];
      ExpectedMore(init, last);
    }
  }

  /** In every run connected, paused, network and status are as they were last said to be. */
  lemma FieldsAreLatest(inputs: seq<Input>)
    ensures Run(EMPTY, inputs).connected == OrFalse(Latest(inputs, SaysConnected))
    ensures Run(EMPTY, inputs).paused == OrFalse(Latest(inputs, SaysPaused))
    ensures Run(EMPTY, inputs).network == Latest(inputs, SaysNetwork)
    ensures Run(EMPTY, inputs).status == ExpectedStatus(inputs)
  {
    ConnectedIsLatest(inputs);
    PausedIsLatest(inputs);
    NetworkIsLatest(inputs);
    StatusIsLatest(inputs);
  }

  // -------------------------------------------------------------------- where apps come from

  /** The input brings a usage, a flow or a Block rule of this name and executable. */
  ghost predicate Brings(input: Input, name: string, exe: Option<PathBuf>) {
    match input
    case Snapshot(_, _, top, _, rules) =>
      || (exists u :: u in top && u.name == name && u.exe == exe)
      || (exists r :: r in rules && r.action == Block && r.name == name && exe == Some(r.exePath))
    case Streamed(ConnectionOpened(conn)) => NameOf(conn) == name && conn.exe == exe
    case Streamed(ConnectionUpdated(conn)) => NameOf(conn) == name && conn.exe == exe
    case Streamed(RuleAdded(r)) => r.action == Block && r.name == name && exe == Some(r.exePath)
    case _ => false
  }

  ghost predicate Known(inputs: seq<Input>, name: string, exe: Option<PathBuf>) {
    exists i :: 0 <= i < |inputs| && Brings(inputs[i], name, exe)
  }

  /** Every listed app, under its key, and every Block rule was brought by some input. */
  ghost predicate AllKnown(inputs: seq<Input>, apps: map<string, AppEntry>, rules: seq<Rule>) {
    && (forall a :: a in apps ==> a == AppKey(apps[a].exe, apps[a].name) && Known(inputs, apps[a].name, apps[a].exe))
    && (forall r :: r in rules && r.action == Block ==> Known(inputs, r.name, Some(r.exePath)))
  }

  lemma KnownLater(init: seq<Input>, last: Input, name: string, exe: Option<PathBuf>)
    ensures Known(init, name, exe) || Brings(last, name, exe) ==> Known(init + [last], name, exe)
  {
    if Known(init, name, exe) {
      var i :| 0 <= i < |init| && Brings(init[i], name, exe);
      assert Brings((init + [last])[i], name, exe);
    }
    if Brings(last, name, exe) {
      assert Brings((init + [last])[|init|], name, exe);
    }
  }

  lemma AllKnownLater(init: seq<Input>, last: Input, apps: map<string, AppEntry>, rules: seq<Rule>)
    requires AllKnown(init, apps, rules)
    ensures AllKnown(init + [last], apps, rules)
  {
    forall a | a in apps ensures Known(init + [last], apps[a].name, apps[a].exe) {
      KnownLater(init, last, apps[a].name, apps[a].exe);
    }
    forall r | r in rules && r.action == Block ensures Known(init + [last], r.name, Some(r.exePath)) {
      KnownLater(init, last, r.name, Some(r.exePath));
    }
  }

  lemma {:induction false} AddedAppsKnown(inputs: seq<Input>, apps: map<string, AppEntry>, rules: seq<Rule>)
    requires AllKnown(inputs, apps, rules)
    ensures AllKnown(inputs, WithBlockedApps(apps, rules), [])
    decreases |rules|
  {
    if rules == [] {
    } else {
      var rule := rules[0];
      var key := AppKey(Some(rule.exePath), rule.name);
      var more := if rule.action == Block && key !in apps then apps[key := AppOfRule(rule)] else apps;
      assert rule in rules && rules == [rule] + rules[1..];
      assert AllKnown(inputs, more, rules[1..]);
      AddedAppsKnown(inputs, more, rules[1..]);
    }
  }

  lemma RefreshedAppsKnown(inputs: seq<Input>, apps: map<string, AppEntry>, rules: seq<Rule>)
    requires AllKnown(inputs, apps, rules)
    ensures AllKnown(inputs, Refreshed(apps, rules), rules)
  {
    AddedAppsKnown(inputs, apps, rules);
    var added, refreshed := WithBlockedApps(apps, rules), Refreshed(apps, rules);
    forall a | a in refreshed
      ensures a == AppKey(refreshed[a].exe, refreshed[a].name) && Known(inputs, refreshed[a].name, refreshed[a].exe)
    {
      assert added[a].name == refreshed[a].name && added[a].exe == refreshed[a].exe;
    }
  }

  lemma {:induction false} LoadedAppsKnown(top: seq<AppUsage>, a: string)
    requires a in LoadedApps(top)
    ensures var app := LoadedApps(top)[a];
            a == AppKey(app.exe, app.name) && exists u :: u in top && u.name == app.name && u.exe == app.exe
    decreases |top|
  {
    var init, last := top[..|top| - 1], top[|top| - 1];
    if a == AppKey(last.exe, last.name) {
      assert last in top;
    } else {
      LoadedAppsKnown(init, a);
    }
  }

  lemma SnapshotKnown(init: seq<Input>, v: View, s: Input)
    requires s.Snapshot?
    ensures AllKnown(init + [s], AfterSnapshot(v, s).apps, s.rules)
  {
    var loaded := LoadedApps(s.top);
    forall a | a in loaded
      ensures a == AppKey(loaded[a].exe, loaded[a].name) && Known(init + [s], loaded[a].name, loaded[a].exe)
    {
      LoadedAppsKnown(s.top, a);
      KnownLater(init, s, loaded[a].name, loaded[a].exe);
    }
    forall r | r in s.rules && r.action == Block ensures Known(init + [s], r.name, Some(r.exePath)) {
      KnownLater(init, s, r.name, Some(r.exePath));
    }
    RefreshedAppsKnown(init + [s], loaded, s.rules);
    SampledKnown(init + [s], Refreshed(loaded, s.rules), s.rules);
  }

  lemma SampledKnown(inputs: seq<Input>, apps: map<string, AppEntry>, rules: seq<Rule>)
    requires AllKnown(inputs, apps, rules)
    ensures AllKnown(inputs, Sampled(apps), rules) && AllKnown(inputs, TickedApps(apps), rules)
  {
  }

  lemma ReportKnown(inputs: seq<Input>, v: View, conn: ConnectionInfo, isOpen: bool)
    requires AllKnown(inputs, v.apps, v.rules) && Known(inputs, NameOf(conn), conn.exe)
    ensures AllKnown(inputs, Upsert(v, conn, isOpen).apps, v.rules)
  {
    var app := UpsertedApp(v, conn, isOpen);
    if AppKeyOf(conn) in v.apps {
      assert app.name == v.apps[AppKeyOf(conn)].name && app.exe == v.apps[AppKeyOf(conn)].exe;
    } else {
      assert app.name == NameOf(conn) && app.exe == conn.exe;
    }
  }

  lemma ReleaseKnown(inputs: seq<Input>, apps: map<string, AppEntry>, key: string, rules: seq<Rule>)
    requires AllKnown(inputs, apps, rules)
    ensures AllKnown(inputs, Released(apps, key), rules)
  {
  }

  lemma EventKnown(init: seq<Input>, v: View, event: Event)
    requires AllKnown(init, v.apps, v.rules)
    ensures AllKnown(init + [Streamed(event)], AfterEvent(v, event).apps, AfterEvent(v, event).rules)
  {
    var inputs := init + [Streamed(event)];
    AllKnownLater(init, Streamed(event), v.apps, v.rules);
    if event.ConnectionOpened? || event.ConnectionUpdated? {
      KnownLater(init, Streamed(event), NameOf(event.conn), event.conn.exe);
      ReportKnown(inputs, v, event.conn, event.ConnectionOpened?);
    } else if event.ConnectionClosed? {
      if event.key in v.conns {
        ReleaseKnown(inputs, v.apps, AppKeyOf(v.conns[event.key]), v.rules);
      }
    } else if event.RuleAdded? || event.RuleRemoved? {
      RuleEventKnown(init, v, event);
    }
  }

  lemma RuleEventKnown(init: seq<Input>, v: View, event: Event)
    requires AllKnown(init, v.apps, v.rules) && (event.RuleAdded? || event.RuleRemoved?)
    ensures AllKnown(init + [Streamed(event)], AfterEvent(v, event).apps, AfterEvent(v, event).rules)
  {
    var inputs, rules := init + [Streamed(event)], RulesAfter(v.rules, event);
    AllKnownLater(init, Streamed(event), v.apps, v.rules);
    forall r | r in rules && r.action == Block ensures Known(inputs, r.name, Some(r.exePath)) {
      KnownLater(init, Streamed(event), r.name, Some(r.exePath));
    }
    RefreshedAppsKnown(inputs, v.apps, rules);
  }

  /** In every run each listed app has the name and the executable of a usage, a flow or a Block rule
      that the client was told of, and stands under the key these make. */
  lemma {:induction false} AppsAreKnown(inputs: seq<Input>)
    ensures AllKnown(inputs, Run(EMPTY, inputs).apps, Run(EMPTY, inputs).rules)
    decreases |inputs|
  {
    if inputs == [] {
    } else {
      var init, last := inputs[..|inputs| - 1], inputs[|inputs| - 1];
      assert inputs == init + [last];
      AppsAreKnown(init);
      var v := Run(EMPTY, init);
      AllKnownLater(init, last, v.apps, v.rules);
      match last
      case Snapshot(_, _, _, _, _) => SnapshotKnown(init, v, last);
      case Streamed(event) => EventKnown(init, v, event);
      case Tick => SampledKnown(inputs, v.apps, v.rules);
      case Disconnected =>
    }
  }
}
