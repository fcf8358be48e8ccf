/**
 Blocked flags in the client: what `blocked`, `block_rule_id` and the blocked-app count mean in
 every state a client can reach.
 */
module ClientRules {
  import opened Types
  import opened Collections
  import opened Client

  predicate Blocks(rule: Rule, exe: Option<PathBuf>) {
    rule.action == Block && exe == Some(rule.exePath)
  }

  ghost predicate FirstToBlock(rules: seq<Rule>, exe: Option<PathBuf>, i: nat) {
    i < |rules| && Blocks(rules[i], exe) && forall j :: 0 <= j < i ==> !Blocks(rules[j], exe)
  }

  /** An app is blocked exactly if a Block rule names its exe, and carries the first one's id. */
  ghost predicate Exact(app: AppEntry, rules: seq<Rule>) {
    && (app.blocked <==> exists r :: r in rules && Blocks(r, app.exe))
    && (app.blocked ==> exists i: nat :: FirstToBlock(rules, app.exe, i) && app.blockRuleId == Some(rules[i].id))
    && (!app.blocked ==> app.blockRuleId == None)
  }

  ghost predicate FlagsExact(apps: map<string, AppEntry>, rules: seq<Rule>) {
    forall k :: k in apps ==> Exact(apps[k], rules)
  }

  ghost predicate KeyedApps(apps: map<string, AppEntry>) {
    forall k :: k in apps ==> k == AppKey(apps[k].exe, apps[k].name)
  }

  lemma {:induction false} FirstBlockIsFirst(rules: seq<Rule>, exe: PathBuf)
    ensures FirstBlock(rules, exe) == None ==> forall r :: r in rules ==> !Blocks(r, Some(exe))
    ensures FirstBlock(rules, exe).Some? ==>
              exists i: nat :: FirstToBlock(rules, Some(exe), i) && FirstBlock(rules, exe).value == rules[i]
  {
    if rules == [] {
    } else {
      var rest := rules[1..];
      assert rules == [rules[0]] + rest;
      if rules[0].action == Block && rules[0].exePath == exe {
        assert FirstToBlock(rules, Some(exe), 0);
      } else {
        FirstBlockIsFirst(rest, exe);
        if FirstBlock(rest, exe).Some? {
          var i: nat :| FirstToBlock(rest, Some(exe), i) && FirstBlock(rest, exe).value == rest[i];
          forall j | 0 <= j < i + 1 ensures !Blocks(rules[j], Some(exe)) {
            if j > 0 {
              assert rules[j] == rest[j - 1];
            }
          }
          assert FirstToBlock(rules, Some(exe), i + 1);
        }
      }
    }
  }

  lemma FlaggedIsExact(rules: seq<Rule>, app: AppEntry)
    ensures Exact(Flagged(rules, app), rules)
  {
    if app.exe.Some? {
      var first := FirstBlock(rules, app.exe.value);
      FirstBlockIsFirst(rules, app.exe.value);
      if first.Some? {
        var i: nat :| FirstToBlock(rules, app.exe, i) && first.value == rules[i];
        assert rules[i] in rules;
      }
    }
  }

  lemma ExactDependsOnFlags(app: AppEntry, app': AppEntry, rules: seq<Rule>)
    requires Exact(app, rules)
    requires app'.exe == app.exe && app'.blocked == app.blocked && app'.blockRuleId == app.blockRuleId
    ensures Exact(app', rules)
  {
  }

  // ------------------------------------------------------------ every operation keeps them

  lemma {:induction false} WithBlockedAppsKeyed(apps: map<string, AppEntry>, rules: seq<Rule>)
    requires KeyedApps(apps)
    ensures KeyedApps(WithBlockedApps(apps, rules))
    decreases |rules|
  {
    if rules == [] {
    } else {
      var key := AppKey(Some(rules[0].exePath), rules[0].name);
      WithBlockedAppsKeyed(
        if rules[0].action == Block && key !in apps then apps[key := AppOfRule(rules[0])] else apps,
        rules[1..]);
    }
  }

  lemma RefreshedIsExact(apps: map<string, AppEntry>, rules: seq<Rule>)
    requires KeyedApps(apps)
    ensures KeyedApps(Refreshed(apps, rules)) && FlagsExact(Refreshed(apps, rules), rules)
  {
    WithBlockedAppsKeyed(apps, rules);
    var added := WithBlockedApps(apps, rules);
    forall k | k in Refreshed(apps, rules) ensures Exact(Refreshed(apps, rules)[k], rules) {
      FlaggedIsExact(rules, added[k]);
    }
  }

  lemma {:induction false} LoadedAppsKeyed(top: seq<AppUsage>)
    ensures KeyedApps(LoadedApps(top))
  {
    if top == [] {
    } else {
      LoadedAppsKeyed(top[..|top| - 1]);
    }
  }

  lemma SnapshotIsExact(v: View, s: Input)
    requires s.Snapshot?
    ensures KeyedApps(AfterSnapshot(v, s).apps) && FlagsExact(AfterSnapshot(v, s).apps, s.rules)
  {
    LoadedAppsKeyed(s.top);
    var refreshed := Refreshed(LoadedApps(s.top), s.rules);
    RefreshedIsExact(LoadedApps(s.top), s.rules);
    forall k | k in Sampled(refreshed) ensures Exact(Sampled(refreshed)[k], s.rules) {
      ExactDependsOnFlags(refreshed[k], Sampled(refreshed)[k], s.rules);
    }
  }

  lemma UpsertedAppIsExact(v: View, conn: ConnectionInfo, isOpen: bool)
    requires KeyedApps(v.apps)
    ensures var app := UpsertedApp(v, conn, isOpen);
            Exact(app, v.rules) && AppKey(app.exe, app.name) == AppKeyOf(conn)
  {
    var key := AppKeyOf(conn);
    var app := if key in v.apps then v.apps[key] else NewApp(NameOf(conn), conn.exe);
    var counted := app.(
      bytesSent := app.bytesSent + Delta(v.conns, conn, Sent),
      bytesRecv := app.bytesRecv + Delta(v.conns, conn, Recv),
      connections := app.connections + if isOpen && conn.key !in v.conns then 1 else 0);
    assert UpsertedApp(v, conn, isOpen) == Flagged(v.rules, counted);
    FlaggedIsExact(v.rules, counted);
  }

  lemma UpsertIsExact(v: View, conn: ConnectionInfo, isOpen: bool)
    requires KeyedApps(v.apps) && FlagsExact(v.apps, v.rules)
    ensures KeyedApps(Upsert(v, conn, isOpen).apps) && FlagsExact(Upsert(v, conn, isOpen).apps, v.rules)
  {
    UpsertedAppIsExact(v, conn, isOpen);
  }

  lemma ReleasedIsExact(apps: map<string, AppEntry>, key: string, rules: seq<Rule>)
    requires KeyedApps(apps) && FlagsExact(apps, rules)
    ensures KeyedApps(Released(apps, key)) && FlagsExact(Released(apps, key), rules)
  {
    if key in apps {
      var app := apps[key].(connections := SaturatingSub(apps[key].connections, 1));
      ExactDependsOnFlags(apps[key], app, rules);
    }
  }

  lemma TickedIsExact(apps: map<string, AppEntry>, rules: seq<Rule>)
    requires KeyedApps(apps) && FlagsExact(apps, rules)
    ensures KeyedApps(TickedApps(apps)) && FlagsExact(TickedApps(apps), rules)
  {
    forall k | k in TickedApps(apps) ensures Exact(TickedApps(apps)[k], rules) {
      ExactDependsOnFlags(apps[k], TickedApps(apps)[k], rules);
    }
  }

  lemma EventIsExact(v: View, event: Event)
    requires KeyedApps(v.apps) && FlagsExact(v.apps, v.rules)
    ensures KeyedApps(AfterEvent(v, event).apps) && FlagsExact(AfterEvent(v, event).apps, AfterEvent(v, event).rules)
  {
    match event
    case ConnectionOpened(conn) => UpsertIsExact(v, conn, true);
    case ConnectionUpdated(conn) => UpsertIsExact(v, conn, false);
    case ConnectionClosed(key) =>
      if key in v.conns {
        ReleasedIsExact(v.apps, AppKeyOf(v.conns[key]), v.rules);
      }
    case RuleAdded(_) => RefreshedIsExact(v.apps, RulesAfter(v.rules, event));
    case RuleRemoved(_) => RefreshedIsExact(v.apps, RulesAfter(v.rules, event));
    case _ =>
  }

  lemma StepIsExact(v: View, input: Input)
    requires KeyedApps(v.apps) && FlagsExact(v.apps, v.rules)
    ensures KeyedApps(After(v, input).apps) && FlagsExact(After(v, input).apps, After(v, input).rules)
  {
    match input
    case Snapshot(_, _, _, _, _) => SnapshotIsExact(v, input);
    case Streamed(event) => EventIsExact(v, event);
    case Tick => TickedIsExact(v.apps, v.rules);
    case Disconnected =>
  }

  /** In every reachable client state the flags are exact, whatever the inputs were. */
  lemma {:induction false} FlagsExactInEveryRun(inputs: seq<Input>)
    ensures KeyedApps(Run(EMPTY, inputs).apps)
    ensures FlagsExact(Run(EMPTY, inputs).apps, Run(EMPTY, inputs).rules)
    decreases |inputs|
  {
    if inputs == [] {
    } else {
      FlagsExactInEveryRun(inputs[..|inputs| - 1]);
      StepIsExact(Run(EMPTY, inputs[..|inputs| - 1]), inputs[|inputs| - 1]);
    }
  }

  // ------------------------------------------------------------- every block is on the page

  /** The printed path is exact and cannot be taken for the key of an app without a path. */
  predicate Plain(path: PathBuf) {
    path.lost == [] && !("name:" <= path.display)
  }

  predicate PlainExe(exe: Option<PathBuf>) {
    exe.Some? ==> Plain(exe.value)
  }

  ghost predicate PlainRules(rules: seq<Rule>) {
    forall r :: r in rules ==> Plain(r.exePath)
  }

  ghost predicate PlainApps(apps: map<string, AppEntry>) {
    forall k :: k in apps ==> PlainExe(apps[k].exe)
  }

  ghost predicate PlainInput(input: Input) {
    match input
    case Snapshot(_, _, top, _, rules) => PlainRules(rules) && forall u :: u in top ==> PlainExe(u.exe)
    case Streamed(ConnectionOpened(conn)) => PlainExe(conn.exe)
    case Streamed(ConnectionUpdated(conn)) => PlainExe(conn.exe)
    case Streamed(RuleAdded(rule)) => Plain(rule.exePath)
    case _ => true
  }

  predicate ShowsBlock(apps: map<string, AppEntry>, exe: PathBuf) {
    exe.display in apps && apps[exe.display].exe == Some(exe) && apps[exe.display].blocked
  }

  ghost predicate ShowsBlocks(apps: map<string, AppEntry>, rules: seq<Rule>) {
    forall r :: r in rules && r.action == Block ==> ShowsBlock(apps, r.exePath)
  }

  lemma PlainKeyIsExe(app: AppEntry, exe: PathBuf)
    requires PlainExe(app.exe) && Plain(exe) && AppKey(app.exe, app.name) == exe.display
    ensures app.exe == Some(exe)
  {
    assert app.exe == None ==> "name:" <= AppKey(app.exe, app.name);
  }

  /** Whose entry stands under `key` once the Block rules have theirs: whoever had it before, else
      the first Block rule with that key. */
  function Owner(before: Option<AppEntry>, rules: seq<Rule>, key: string): Option<AppEntry> {
    if before.Some? then before
    else if rules == [] then None
    else if rules[0].action == Block && AppKey(Some(rules[0].exePath), rules[0].name) == key then
      Some(AppOfRule(rules[0]))
    else Owner(before, rules[1..], key)
  }

  lemma {:induction false} WithBlockedAppsOwner(apps: map<string, AppEntry>, rules: seq<Rule>, key: string)
    ensures Get(WithBlockedApps(apps, rules), key) == Owner(Get(apps, key), rules, key)
    decreases |rules|
  {
    if rules == [] {
    } else {
      var rule := rules[0];
      var k := AppKey(Some(rule.exePath), rule.name);
      WithBlockedAppsOwner(
        if rule.action == Block && k !in apps then apps[k := AppOfRule(rule)] else apps, rules[1..], key);
    }
  }

  lemma {:induction false} OwnerExists(before: Option<AppEntry>, rules: seq<Rule>, rule: Rule)
    requires rule in rules && rule.action == Block
    ensures Owner(before, rules, rule.exePath.display).Some?
    decreases |rules|
  {
    if rules[0] == rule {
    } else {
      OwnerExists(before, rules[1..], rule);
    }
  }

  /** Refreshing shows a block under its path exactly when no other executable owns that key. */
  lemma RefreshShowsBlockIffOwned(apps: map<string, AppEntry>, rules: seq<Rule>, rule: Rule)
    requires rule in rules && rule.action == Block
    ensures ShowsBlock(Refreshed(apps, rules), rule.exePath) <==>
            var owner := Owner(Get(apps, rule.exePath.display), rules, rule.exePath.display);
            owner.Some? && owner.value.exe == Some(rule.exePath)
  {
    var key := rule.exePath.display;
    WithBlockedAppsOwner(apps, rules, key);
    OwnerExists(Get(apps, key), rules, rule);
    var entry := WithBlockedApps(apps, rules)[key];
    FlaggedIsExact(rules, entry);
    assert Blocks(rule, Some(rule.exePath));
  }

  lemma {:induction false} PlainOwner(before: Option<AppEntry>, rules: seq<Rule>, key: string)
    requires before.Some? ==> PlainExe(before.value.exe) && AppKey(before.value.exe, before.value.name) == key
    requires PlainRules(rules)
    ensures var owner := Owner(before, rules, key);
            owner.Some? ==> PlainExe(owner.value.exe) && AppKey(owner.value.exe, owner.value.name) == key
    decreases |rules|
  {
    if before.Some? || rules == [] {
    } else {
      PlainOwner(before, rules[1..], key);
    }
  }

  lemma RefreshShowsBlocks(apps: map<string, AppEntry>, rules: seq<Rule>)
    requires KeyedApps(apps) && PlainApps(apps) && PlainRules(rules)
    ensures ShowsBlocks(Refreshed(apps, rules), rules) && PlainApps(Refreshed(apps, rules))
  {
    forall r | r in rules && r.action == Block ensures ShowsBlock(Refreshed(apps, rules), r.exePath) {
      var key := r.exePath.display;
      OwnerExists(Get(apps, key), rules, r);
      PlainOwner(Get(apps, key), rules, key);
      PlainKeyIsExe(Owner(Get(apps, key), rules, key).value, r.exePath);
      RefreshShowsBlockIffOwned(apps, rules, r);
    }
    forall k | k in Refreshed(apps, rules) ensures PlainExe(Refreshed(apps, rules)[k].exe) {
      WithBlockedAppsOwner(apps, rules, k);
      PlainOwner(Get(apps, k), rules, k);
    }
  }

  lemma {:induction false} LoadedAppsPlain(top: seq<AppUsage>)
    requires forall u :: u in top ==> PlainExe(u.exe)
    ensures PlainApps(LoadedApps(top))
  {
    if top == [] {
    } else {
      LoadedAppsPlain(top[..|top| - 1]);
    }
  }

  /** Everything a state needs for its blocks to be shown. */
  ghost predicate AllShown(v: View) {
    && KeyedApps(v.apps) && FlagsExact(v.apps, v.rules)
    && PlainApps(v.apps) && PlainRules(v.rules) && ShowsBlocks(v.apps, v.rules)
  }

  lemma UpsertShows(v: View, conn: ConnectionInfo, isOpen: bool)
    requires AllShown(v) && PlainExe(conn.exe)
    ensures PlainApps(Upsert(v, conn, isOpen).apps) && ShowsBlocks(Upsert(v, conn, isOpen).apps, v.rules)
  {
    UpsertIsExact(v, conn, isOpen);
    var apps := Upsert(v, conn, isOpen).apps;
    forall r | r in v.rules && r.action == Block ensures ShowsBlock(apps, r.exePath) {
      assert ShowsBlock(v.apps, r.exePath);
      assert Blocks(r, Some(r.exePath));
      assert Exact(apps[r.exePath.display], v.rules);
    }
  }

  lemma ReleaseShows(apps: map<string, AppEntry>, key: string, rules: seq<Rule>)
    requires PlainApps(apps) && ShowsBlocks(apps, rules)
    ensures PlainApps(Released(apps, key)) && ShowsBlocks(Released(apps, key), rules)
  {
    forall r | r in rules && r.action == Block ensures ShowsBlock(Released(apps, key), r.exePath) {
      assert ShowsBlock(apps, r.exePath);
    }
  }

  lemma EventShows(v: View, event: Event)
    requires AllShown(v) && PlainInput(Streamed(event))
    ensures AllShown(AfterEvent(v, event))
  {
    EventIsExact(v, event);
    match event
    case ConnectionOpened(conn) => UpsertShows(v, conn, true);
    case ConnectionUpdated(conn) => UpsertShows(v, conn, false);
    case ConnectionClosed(key) =>
      if key in v.conns {
        ReleaseShows(v.apps, AppKeyOf(v.conns[key]), v.rules);
      }
    case RuleAdded(_) => RefreshShowsBlocks(v.apps, RulesAfter(v.rules, event));
    case RuleRemoved(_) => RefreshShowsBlocks(v.apps, RulesAfter(v.rules, event));
    case _ =>
  }

  lemma SnapshotShows(v: View, s: Input)
    requires s.Snapshot? && PlainInput(s)
    ensures AllShown(AfterSnapshot(v, s))
  {
    SnapshotIsExact(v, s);
    LoadedAppsKeyed(s.top);
    LoadedAppsPlain(s.top);
    RefreshShowsBlocks(LoadedApps(s.top), s.rules);
    var refreshed := Refreshed(LoadedApps(s.top), s.rules);
    forall r | r in s.rules && r.action == Block ensures ShowsBlock(Sampled(refreshed), r.exePath) {
      assert ShowsBlock(refreshed, r.exePath);
    }
  }

  lemma StepShows(v: View, input: Input)
    requires AllShown(v) && PlainInput(input)
    ensures AllShown(After(v, input))
  {
    match input
    case Snapshot(_, _, _, _, _) => SnapshotShows(v, input);
    case Streamed(event) => EventShows(v, event);
    case Tick =>
      TickedIsExact(v.apps, v.rules);
      forall r | r in v.rules && r.action == Block ensures ShowsBlock(TickedApps(v.apps), r.exePath) {
        assert ShowsBlock(v.apps, r.exePath);
      }
    case Disconnected =>
  }

  /** In every run over plain paths each Block rule's exe has its own app entry, shown blocked. */
  lemma {:induction false} BlocksShownInEveryRun(inputs: seq<Input>)
    requires forall i :: 0 <= i < |inputs| ==> PlainInput(inputs[i])
    ensures AllShown(Run(EMPTY, inputs))
    decreases |inputs|
  {
    if inputs == [] {
    } else {
      BlocksShownInEveryRun(inputs[..|inputs| - 1]);
      StepShows(Run(EMPTY, inputs[..|inputs| - 1]), inputs[|inputs| - 1]);
    }
  }

  function BlockedExes(rules: seq<Rule>): set<PathBuf> {
    set r | r in rules && r.action == Block :: r.exePath
  }

  function DisplayOf(path: PathBuf): string { path.display }

  /** ... and the number of blocked apps is the number of distinct paths with a Block rule. */
  lemma BlockedCountIsExact(inputs: seq<Input>)
    requires forall i :: 0 <= i < |inputs| ==> PlainInput(inputs[i])
    ensures |BlockedKeys(Run(EMPTY, inputs))| == |BlockedExes(Run(EMPTY, inputs).rules)|
  {
    BlocksShownInEveryRun(inputs);
    ShownCount(Run(EMPTY, inputs));
  }

  lemma ShownCount(v: View)
    requires AllShown(v)
    ensures |BlockedKeys(v)| == |BlockedExes(v.rules)|
  {
    var exes, keys := BlockedExes(v.rules), BlockedKeys(v);
    forall k | k in keys ensures exists e :: e in exes && DisplayOf(e) == k {
      assert Exact(v.apps[k], v.rules);
      var r :| r in v.rules && Blocks(r, v.apps[k].exe);
      assert r.exePath in exes;
    }
    forall e | e in exes ensures DisplayOf(e) in keys && Plain(e) {
      var r :| r in v.rules && r.action == Block && r.exePath == e;
      assert ShowsBlock(v.apps, e);
    }
    assert keys == set e | e in exes :: DisplayOf(e);
    ImageCardinality(exes, keys, DisplayOf);
  }
}
