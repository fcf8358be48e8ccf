/**
 The client's state reducer (crates/gui/src/state.rs).

 `View` is the abstract value of a `ClientState` object. The pure functions on it say what each
 operation does; the class below carries out the operations by updating its fields and is proved
 to follow the functions.
 */
module Client {
  import opened Types
  import opened Collections

  /** Maximum number of live connections kept. */
  const MAX_CONNECTIONS: nat := 500

  datatype AppEntry = AppEntry(
    name: string,
    exe: Option<PathBuf>,
    bytesSent: nat,
    bytesRecv: nat,
    connections: nat,
    blocked: bool,
    blockRuleId: Option<nat>,
    speedUp: nat,
    speedDown: nat,
    prevSent: nat,
    prevRecv: nat)

  datatype View = View(
    connected: bool,
    status: Option<Status>,
    network: Option<NetworkInfo>,
    rules: seq<Rule>,
    paused: bool,
    apps: map<string, AppEntry>,
    conns: map<string, ConnectionInfo>,
    order: seq<string>,
    totalUp: nat,
    totalDown: nat,
    speedUp: nat,
    speedDown: nat,
    prevUp: nat,
    prevDown: nat)

  /** What reaches the client: a fetched snapshot, a streamed event, the one-second tick, or the
      loss of the connection. */
  datatype Input =
    | Snapshot(status: Status, network: NetworkInfo, top: seq<AppUsage>,
               conns: seq<ConnectionInfo>, rules: seq<Rule>)
    | Streamed(event: Event)
    | Tick
    | Disconnected

  /** Grouping key of an application: the printed exe path if known, else the process name. */
  function AppKey(exe: Option<PathBuf>, name: string): string {
    if exe.Some? then exe.value.display else "name:" + name
  }

  function NameOf(conn: ConnectionInfo): string {
    if conn.processName.Some? then conn.processName.value else "unknown"
  }

  function AppKeyOf(conn: ConnectionInfo): string {
    AppKey(conn.exe, NameOf(conn))
  }

  function NewApp(name: string, exe: Option<PathBuf>): AppEntry {
    AppEntry(name, exe, 0, 0, 0, false, None, 0, 0, 0, 0)
  }

  /** The first Block rule for an executable, if any. */
  function FirstBlock(rules: seq<Rule>, exe: PathBuf): Option<Rule> {
    if rules == [] then None
    else if rules[0].action == Block && rules[0].exePath == exe then Some(rules[0])
    else FirstBlock(rules[1..], exe)
  }

  function RuleFor(rules: seq<Rule>, exe: Option<PathBuf>): Option<Rule> {
    if exe.Some? then FirstBlock(rules, exe.value) else None
  }

  /** `apply_rule_flags`. */
  function Flagged(rules: seq<Rule>, app: AppEntry): AppEntry {
    var rule := RuleFor(rules, app.exe);
    app.(blocked := rule.Some?, blockRuleId := if rule.Some? then Some(rule.value.id) else None)
  }

  predicate Idle(app: AppEntry) {
    app.connections == 0 && !app.blocked
  }

  function AppOfRule(rule: Rule): AppEntry {
    NewApp(rule.name, Some(rule.exePath))
  }

  /** Every Block rule gets an entry, unless its key has one already. */
  function WithBlockedApps(apps: map<string, AppEntry>, rules: seq<Rule>): map<string, AppEntry>
    decreases |rules|
  {
    if rules == [] then apps
    else
      var rule := rules[0];
      var key := AppKey(Some(rule.exePath), rule.name);
      WithBlockedApps(
        if rule.action == Block && key !in apps then apps[key := AppOfRule(rule)] else apps,
        rules[1..])
  }

  function FlaggedApps(rules: seq<Rule>, apps: map<string, AppEntry>): map<string, AppEntry> {
    map k | k in apps :: Flagged(rules, apps[k])
  }

  function WithoutIdle(apps: map<string, AppEntry>): map<string, AppEntry> {
    map k | k in apps && !Idle(apps[k]) :: apps[k]
  }

  /** `refresh_rule_flags`: add blocked apps, recompute all flags, drop the idle entries. */
  function Refreshed(apps: map<string, AppEntry>, rules: seq<Rule>): map<string, AppEntry> {
    WithoutIdle(FlaggedApps(rules, WithBlockedApps(apps, rules)))
  }

  datatype Index = Index(conns: map<string, ConnectionInfo>, order: seq<string>)

  /** `enforce_conn_cap`: drop from the front of the order while there are too many. */
  function Capped(ix: Index): Index
    decreases |ix.order|
  {
    if |ix.conns| > MAX_CONNECTIONS && ix.order != [] then
      Capped(Index(ix.conns - {ix.order[0]}, ix.order[1..]))
    else ix
  }

  function Loaded(conns: seq<ConnectionInfo>): Index {
    if conns == [] then Index(map[], [])
    else
      var ix := Loaded(conns[..|conns| - 1]);
      var conn := conns[|conns| - 1];
      Index(ix.conns[conn.key := conn], ix.order + [conn.key])
  }

  function AppOfUsage(usage: AppUsage): AppEntry {
    NewApp(usage.name, usage.exe).(
      bytesSent := usage.bytesSent, bytesRecv := usage.bytesRecv, connections := usage.connections)
  }

  function LoadedApps(top: seq<AppUsage>): map<string, AppEntry> {
    if top == [] then map[]
    else
      var usage := top[|top| - 1];
      LoadedApps(top[..|top| - 1])[AppKey(usage.exe, usage.name) := AppOfUsage(usage)]
  }

  function Sampled(apps: map<string, AppEntry>): map<string, AppEntry> {
    map k | k in apps :: apps[k].(prevSent := apps[k].bytesSent, prevRecv := apps[k].bytesRecv)
  }

  function Sent(conn: ConnectionInfo): nat { conn.bytesSent }

  function Recv(conn: ConnectionInfo): nat { conn.bytesRecv }

  function AfterSnapshot(v: View, s: Input): View
    requires s.Snapshot?
  {
    var ix := Loaded(s.conns);
    var up, down := Sum(s.conns, Sent), Sum(s.conns, Recv);
    v.(connected := true, paused := s.status.paused, status := Some(s.status),
       network := Some(s.network), rules := s.rules, conns := ix.conns, order := ix.order,
       totalUp := up, totalDown := down, prevUp := up, prevDown := down,
       apps := Sampled(Refreshed(LoadedApps(s.top), s.rules)))
  }

  /** The bytes by which a flow report advances the totals. */
  function Delta(conns: map<string, ConnectionInfo>, conn: ConnectionInfo, f: ConnectionInfo -> nat): nat {
    SaturatingSub(f(conn), if conn.key in conns then f(conns[conn.key]) else 0)
  }

  function UpsertedApp(v: View, conn: ConnectionInfo, isOpen: bool): AppEntry {
    var key := AppKeyOf(conn);
    var app := if key in v.apps then v.apps[key] else NewApp(NameOf(conn), conn.exe);
    Flagged(v.rules, app.(
      bytesSent := app.bytesSent + Delta(v.conns, conn, Sent),
      bytesRecv := app.bytesRecv + Delta(v.conns, conn, Recv),
      connections := app.connections + if isOpen && conn.key !in v.conns then 1 else 0))
  }

  /** The flow index with a report stored in it, before the cap is enforced. */
  function Stored(ix: Index, conn: ConnectionInfo): Index {
    Index(ix.conns[conn.key := conn], if conn.key in ix.conns then ix.order else ix.order + [conn.key])
  }

  function Upsert(v: View, conn: ConnectionInfo, isOpen: bool): View {
    var ix := Capped(Stored(Index(v.conns, v.order), conn));
    v.(totalUp := v.totalUp + Delta(v.conns, conn, Sent),
       totalDown := v.totalDown + Delta(v.conns, conn, Recv),
       apps := v.apps[AppKeyOf(conn) := UpsertedApp(v, conn, isOpen)],
       conns := ix.conns, order := ix.order)
  }

  /** The app table after one of an app's flows closed. */
  function Released(apps: map<string, AppEntry>, key: string): map<string, AppEntry> {
    if key in apps then
      var app := apps[key].(connections := SaturatingSub(apps[key].connections, 1));
      if Idle(app) then apps - {key} else apps[key := app]
    else apps
  }

  function Removed(v: View, key: string): View {
    if key in v.conns then
      v.(conns := v.conns - {key}, order := Without(v.order, key),
         apps := Released(v.apps, AppKeyOf(v.conns[key])))
    else v
  }

  /** `rules.retain(|r| r.id != id)`. */
  function WithoutRule(rules: seq<Rule>, id: nat): (kept: seq<Rule>)
    ensures forall r :: r in kept <==> r in rules && r.id != id
  {
    if rules == [] then []
    else if rules[0].id == id then WithoutRule(rules[1..], id)
    else [rules[0]] + WithoutRule(rules[1..], id)
  }

  /** How an event changes the client's list of rules. */
  function RulesAfter(rules: seq<Rule>, event: Event): seq<Rule> {
    match event
    case RuleAdded(rule) => WithoutRule(rules, rule.id) + [rule]
    case RuleRemoved(id) => WithoutRule(rules, id)
    case _ => rules
  }

  function AfterEvent(v: View, event: Event): View {
    match event
    case ConnectionOpened(conn) => Upsert(v, conn, true)
    case ConnectionUpdated(conn) => Upsert(v, conn, false)
    case ConnectionClosed(key) => Removed(v, key)
    case RuleAdded(_) =>
      var rules := RulesAfter(v.rules, event);
      v.(rules := rules, apps := Refreshed(v.apps, rules))
    case RuleRemoved(_) =>
      var rules := RulesAfter(v.rules, event);
      v.(rules := rules, apps := Refreshed(v.apps, rules))
    case PausedChanged(paused) => v.(paused := paused)
    case NetworkChanged(network) => v.(network := Some(network))
    case ProcessStarted(_) => v
    case ProcessExited(_) => v
  }

  function TickedApp(app: AppEntry): AppEntry {
    app.(speedUp := SaturatingSub(app.bytesSent, app.prevSent),
         speedDown := SaturatingSub(app.bytesRecv, app.prevRecv),
         prevSent := app.bytesSent, prevRecv := app.bytesRecv)
  }

  function TickedApps(apps: map<string, AppEntry>): map<string, AppEntry> {
    map k | k in apps :: TickedApp(apps[k])
  }

  function AfterTick(v: View): View {
    v.(speedUp := SaturatingSub(v.totalUp, v.prevUp),
       speedDown := SaturatingSub(v.totalDown, v.prevDown),
       prevUp := v.totalUp, prevDown := v.totalDown,
       apps := TickedApps(v.apps),
       status := if v.status.Some?
                 then Some(v.status.value.(uptimeSecs := v.status.value.uptimeSecs + 1))
                 else None)
  }

  function After(v: View, input: Input): View {
    match input
    case Snapshot(_, _, _, _, _) => AfterSnapshot(v, input)
    case Streamed(event) => AfterEvent(v, event)
    case Tick => AfterTick(v)
    case Disconnected => v.(connected := false)
  }

  /** The state after a whole run of inputs. */
  function Run(v: View, inputs: seq<Input>): View
    decreases |inputs|
  {
    if inputs == [] then v
    else After(Run(v, inputs[..|inputs| - 1]), inputs[|inputs| - 1])
  }

  /** The state after a run of streamed events. */
  function Fold(v: View, events: seq<Event>): View
    decreases |events|
  {
    if events == [] then v
    else AfterEvent(Fold(v, events[..|events| - 1]), events[|events| - 1])
  }

  const EMPTY: View :=
    View(false, None, None, [], false, map[], map[], [], 0, 0, 0, 0, 0, 0)

  function BlockedKeys(v: View): set<string> {
    set k | k in v.apps && v.apps[k].blocked
  }

  function ActiveKeys(v: View): set<string> {
    set k | k in v.apps && v.apps[k].connections > 0
  }

  class ClientState {
    var connected: bool
    var status: Option<Status>
    var network: Option<NetworkInfo>
    var rules: seq<Rule>
    var paused: bool
    var apps: map<string, AppEntry>
    var conns: map<string, ConnectionInfo>
    var connOrder: seq<string>
    var totalUp: nat
    var totalDown: nat
    var speedUp: nat
    var speedDown: nat
    var prevTotalUp: nat
    var prevTotalDown: nat

    function State(): View
      reads this
    {
      View(connected, status, network, rules, paused, apps, conns, connOrder, totalUp, totalDown,
           speedUp, speedDown, prevTotalUp, prevTotalDown)
    }

    constructor ()
      ensures State() == EMPTY
    {
      connected, status, network, rules, paused := false, None, None, [], false;
      apps, conns, connOrder := map[], map[], [];
      totalUp, totalDown, speedUp, speedDown, prevTotalUp, prevTotalDown := 0, 0, 0, 0, 0, 0;
    }

    /** One message to the UI, as crates/gui/src/app.rs hands it on. */
    method Update(input: Input)
      modifies this
      ensures State() == After(old(State()), input)
    {
      match input
      case Snapshot(_, _, _, _, _) => ApplySnapshot(input);
      case Streamed(event) => ApplyEvent(event);
      case Tick => Tick();
      case Disconnected => connected := false;
    }

    method ApplySnapshot(s: Input)
      requires s.Snapshot?
      modifies this
      ensures State() == AfterSnapshot(old(State()), s)
    {
      ReplaceFields(s);
    }

    method ReplaceFields(s: Input)
      requires s.Snapshot?
      modifies this`connected, this`paused, this`status, this`network, this`rules, this`apps,
               this`conns, this`connOrder, this`totalUp, this`totalDown,
               this`prevTotalUp, this`prevTotalDown
      ensures connected && paused == s.status.paused && status == Some(s.status)
      ensures network == Some(s.network) && rules == s.rules
      ensures Index(conns, connOrder) == Loaded(s.conns)
      ensures totalUp == prevTotalUp == Sum(s.conns, Sent)
      ensures totalDown == prevTotalDown == Sum(s.conns, Recv)
      ensures apps == Sampled(Refreshed(LoadedApps(s.top), s.rules))
    {
      connected, paused, status, network, rules :=
        true, s.status.paused, Some(s.status), Some(s.network), s.rules;
      LoadConns(s.conns);
      ReplaceApps(s.top);
    }

    method ReplaceApps(top: seq<AppUsage>)
      modifies this`apps, this`prevTotalUp, this`prevTotalDown
      ensures apps == Sampled(Refreshed(LoadedApps(top), rules))
      ensures prevTotalUp == totalUp && prevTotalDown == totalDown
    {
      LoadTop(top);
      RefreshRuleFlags();
      prevTotalUp, prevTotalDown := totalUp, totalDown;
      SampleApps();
    }

    method LoadConns(list: seq<ConnectionInfo>)
      modifies this`conns, this`connOrder, this`totalUp, this`totalDown
      ensures Index(conns, connOrder) == Loaded(list)
      ensures totalUp == Sum(list, Sent) && totalDown == Sum(list, Recv)
    {
      conns, connOrder, totalUp, totalDown := map[], [], 0, 0;
      for i := 0 to |list|
        invariant Index(conns, connOrder) == Loaded(list[..i])
        invariant totalUp == Sum(list[..i], Sent) && totalDown == Sum(list[..i], Recv)
      {
        var conn := list[i];
        totalUp, totalDown := totalUp + conn.bytesSent, totalDown + conn.bytesRecv;
        connOrder := connOrder + [conn.key];
        conns := conns[conn.key := conn];
        assert list[..i + 1][..i] == list[..i] && list[..i + 1] == list[..i] + [conn];
        SumAppend(list[..i], [conn], Sent);
        SumAppend(list[..i], [conn], Recv);
      }
      assert list[..|list|] == list;
    }

    method LoadTop(top: seq<AppUsage>)
      modifies this`apps
      ensures apps == LoadedApps(top)
    {
      apps := map[];
      for i := 0 to |top|
        invariant apps == LoadedApps(top[..i])
      {
        var usage := top[i];
        apps := apps[AppKey(usage.exe, usage.name) := AppOfUsage(usage)];
        assert top[..i + 1][..i] == top[..i];
      }
      assert top[..|top|] == top;
    }

    method ApplyEvent(event: Event)
      modifies this
      ensures State() == AfterEvent(old(State()), event)
    {
      match event
      case ConnectionOpened(conn) => UpsertConn(conn, true);
      case ConnectionUpdated(conn) => UpsertConn(conn, false);
      case ConnectionClosed(key) => RemoveConn(key);
      case RuleAdded(rule) =>
        rules := WithoutRule(rules, rule.id);
        rules := rules + [rule];
        RefreshRuleFlags();
      case RuleRemoved(id) =>
        rules := WithoutRule(rules, id);
        RefreshRuleFlags();
      case PausedChanged(p) => paused := p;
      case NetworkChanged(n) => network := Some(n);
      case ProcessStarted(_) =>
      case ProcessExited(_) =>
    }

    method Tick()
      modifies this
      ensures State() == AfterTick(old(State()))
    {
      SampleTotals();
      TickApps();
      if status.Some? {
        status := Some(status.value.(uptimeSecs := status.value.uptimeSecs + 1));
      }
    }

    method SampleTotals()
      modifies this`speedUp, this`speedDown, this`prevTotalUp, this`prevTotalDown
      ensures speedUp == SaturatingSub(totalUp, old(prevTotalUp))
      ensures speedDown == SaturatingSub(totalDown, old(prevTotalDown))
      ensures prevTotalUp == totalUp && prevTotalDown == totalDown
    {
      speedUp, speedDown := SaturatingSub(totalUp, prevTotalUp), SaturatingSub(totalDown, prevTotalDown);
      prevTotalUp, prevTotalDown := totalUp, totalDown;
    }

    method TickApps()
      modifies this`apps
      ensures apps == TickedApps(old(apps))
    {
      var todo := apps.Keys;
      while todo != {}
        invariant todo <= apps.Keys == old(apps.Keys)
        invariant forall k :: k in apps ==>
                    apps[k] == if k in todo then old(apps)[k] else TickedApp(old(apps)[k])
        decreases todo
      {
        var k :| k in todo;
        apps := apps[k := TickedApp(apps[k])];
        todo := todo - {k};
      }
    }

    method ActiveAppCount() returns (n: nat)
      ensures n == |ActiveKeys(State())|
    {
      n := 0;
      var todo := apps.Keys;
      ghost var counted: set<string> := {};
      while todo != {}
        invariant todo <= apps.Keys
        invariant counted == (set k | k in ActiveKeys(State()) && k !in todo) && n == |counted|
        decreases todo
      {
        var k :| k in todo;
        if apps[k].connections > 0 {
          n := n + 1;
          counted := counted + {k};
        }
        todo := todo - {k};
      }
      assert counted == ActiveKeys(State());
    }

    method BlockedAppCount() returns (n: nat)
      ensures n == |BlockedKeys(State())|
    {
      n := 0;
      var todo := apps.Keys;
      ghost var counted: set<string> := {};
      while todo != {}
        invariant todo <= apps.Keys
        invariant counted == (set k | k in BlockedKeys(State()) && k !in todo) && n == |counted|
        decreases todo
      {
        var k :| k in todo;
        if apps[k].blocked {
          n := n + 1;
          counted := counted + {k};
        }
        todo := todo - {k};
      }
      assert counted == BlockedKeys(State());
    }

    method UpsertConn(conn: ConnectionInfo, isOpen: bool)
      modifies this
      ensures State() == Upsert(old(State()), conn, isOpen)
    {
      UpsertFields(conn, isOpen);
    }

    method UpsertFields(conn: ConnectionInfo, isOpen: bool)
      modifies this`totalUp, this`totalDown, this`apps, this`conns, this`connOrder
      ensures totalUp == old(totalUp) + Delta(old(conns), conn, Sent)
      ensures totalDown == old(totalDown) + Delta(old(conns), conn, Recv)
      ensures apps == old(apps)[AppKeyOf(conn) := UpsertedApp(old(State()), conn, isOpen)]
      ensures Index(conns, connOrder) == Capped(Stored(Index(old(conns), old(connOrder)), conn))
    {
      var existed := conn.key in conns;
      var sent, recv := Delta(conns, conn, Sent), Delta(conns, conn, Recv);
      totalUp, totalDown := totalUp + sent, totalDown + recv;
      AddToApp(conn, sent, recv, isOpen, existed);
      StoreConn(conn, existed);
    }

    method StoreConn(conn: ConnectionInfo, existed: bool)
      requires existed == (conn.key in conns)
      modifies this`conns, this`connOrder
      ensures Index(conns, connOrder) == Capped(Stored(Index(old(conns), old(connOrder)), conn))
    {
      if !existed {
        connOrder := connOrder + [conn.key];
      }
      conns := conns[conn.key := conn];
      EnforceConnCap();
    }

    method AddToApp(conn: ConnectionInfo, sent: nat, recv: nat, isOpen: bool, existed: bool)
      requires existed == (conn.key in conns)
      requires sent == Delta(conns, conn, Sent) && recv == Delta(conns, conn, Recv)
      modifies this`apps
      ensures apps == old(apps)[AppKeyOf(conn) := UpsertedApp(old(State()), conn, isOpen)]
    {
      var key := AppKeyOf(conn);
      var app := if key in apps then apps[key] else NewApp(NameOf(conn), conn.exe);
      app := app.(bytesSent := app.bytesSent + sent, bytesRecv := app.bytesRecv + recv);
      if isOpen && !existed {
        app := app.(connections := app.connections + 1);
      }
      apps := apps[key := Flagged(rules, app)];
    }

    method RemoveConn(key: string)
      modifies this
      ensures State() == Removed(old(State()), key)
    {
      if key !in conns {
        return;
      }
      var appKey := AppKeyOf(conns[key]);
      conns := conns - {key};
      connOrder := Without(connOrder, key);
      if appKey in apps {
        var app := apps[appKey];
        app := app.(connections := SaturatingSub(app.connections, 1));
        apps := if app.connections == 0 && !app.blocked then apps - {appKey} else apps[appKey := app];
      }
    }

    method EnforceConnCap()
      modifies this`conns, this`connOrder
      ensures Index(conns, connOrder) == Capped(Index(old(conns), old(connOrder)))
    {
      while |conns| > MAX_CONNECTIONS && connOrder != []
        invariant Capped(Index(conns, connOrder)) == Capped(Index(old(conns), old(connOrder)))
        decreases |connOrder|
      {
        var oldest := connOrder[0];
        connOrder := connOrder[1..];
        conns := conns - {oldest};
      }
    }

    method RefreshRuleFlags()
      modifies this`apps
      ensures apps == Refreshed(old(apps), rules)
    {
      AddBlockedApps();
      FlagAndDropIdle();
    }

    method AddBlockedApps()
      modifies this`apps
      ensures apps == WithBlockedApps(old(apps), rules)
    {
      for i := 0 to |rules|
        invariant WithBlockedApps(apps, rules[i..]) == WithBlockedApps(old(apps), rules)
      {
        var rule := rules[i];
        assert rules[i..][1..] == rules[i + 1..];
        if rule.action == Block {
          var key := AppKey(Some(rule.exePath), rule.name);
          if key !in apps {
            apps := apps[key := AppOfRule(rule)];
          }
        }
      }
    }

    method FlagAndDropIdle()
      modifies this`apps
      ensures apps == WithoutIdle(FlaggedApps(rules, old(apps)))
    {
      ghost var flagged := FlaggedApps(rules, apps);
      var emptyApps: set<string> := {};
      var todo := apps.Keys;
      while todo != {}
        invariant todo <= apps.Keys == old(apps.Keys)
        invariant forall k :: k in apps ==> apps[k] == if k in todo then old(apps)[k] else flagged[k]
        invariant emptyApps == set k | k in flagged && k !in todo && Idle(flagged[k])
        decreases todo
      {
        var k :| k in todo;
        apps := apps[k := Flagged(rules, apps[k])];
        if apps[k].connections == 0 && !apps[k].blocked {
          emptyApps := emptyApps + {k};
        }
        todo := todo - {k};
      }
      apps := apps - emptyApps;
    }

    method SampleApps()
      modifies this`apps
      ensures apps == Sampled(old(apps))
    {
      var todo := apps.Keys;
      while todo != {}
        invariant todo <= apps.Keys == old(apps.Keys)
        invariant forall k :: k in apps ==>
                    apps[k] == if k in todo then old(apps)[k] else Sampled(old(apps))[k]
        decreases todo
      {
        var k :| k in todo;
        apps := apps[k := apps[k].(prevSent := apps[k].bytesSent, prevRecv := apps[k].bytesRecv)];
        todo := todo - {k};
      }
    }
  }
}
